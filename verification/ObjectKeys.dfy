/** Object keys: `cases/<case id>/evidence/<evidence id>/<file name>`. */
module ObjectKeys {
  import opened Text

  /** Text without a separator: ids, and file names once they are cleaned. */
  predicate NoSlash(s: string) { '/' !in s }

  function ObjectKey(caseId: string, id: string, name: string): string {
    "cases/" + (caseId + ("/" + ("evidence/" + (id + ("/" + name)))))
  }

  /** The text in front of the first separator. */
  function Head(s: string): (h: string)
    ensures |h| <= |s|
  {
    if s == "" || s[0] == '/' then "" else [s[0]] + Head(s[1..])
  }

  lemma {:induction false} HeadOfPart(part: string, rest: string)
    requires NoSlash(part)
    ensures Head(part + ("/" + rest)) == part
  {
    if part == "" {
      assert (part + ("/" + rest))[0] == '/';
    } else {
      var all := part + ("/" + rest);
      assert all[0] == part[0] && all[1..] == part[1..] + ("/" + rest);
      HeadOfPart(part[1..], rest);
      assert [part[0]] + part[1..] == part;
    }
  }

  lemma PartSplit(a: string, b: string, c: string, d: string)
    requires NoSlash(a) && NoSlash(c) && a + ("/" + b) == c + ("/" + d)
    ensures a == c && b == d
  {
    HeadOfPart(a, b);
    HeadOfPart(c, d);
    SplitAt(a, "/" + b, c, "/" + d);
    SplitAt("/", b, "/", d);
  }

  /** A key splits back into exactly the case id, evidence id and name it was made of. */
  lemma ObjectKeyInjective(c: string, i: string, n: string, c': string, i': string, n': string)
    requires NoSlash(c) && NoSlash(i) && NoSlash(c') && NoSlash(i')
    ensures ObjectKey(c, i, n) == ObjectKey(c', i', n') <==> c == c' && i == i' && n == n'
  {
    if ObjectKey(c, i, n) == ObjectKey(c', i', n') {
      var tail, tail' := i + ("/" + n), i' + ("/" + n');
      SplitAt("cases/", c + ("/" + ("evidence/" + tail)), "cases/", c' + ("/" + ("evidence/" + tail')));
      PartSplit(c, "evidence/" + tail, c', "evidence/" + tail');
      SplitAt("evidence/", tail, "evidence/", tail');
      PartSplit(i, n, i', n');
    }
  }

  /** The parts of a path between its separators. */
  function Parts(s: string): seq<string>
    decreases |s|
  {
    if '/' !in s then [s] else BetweenParts(s); [Head(s)] + Parts(s[|Head(s)| + 1..])
  }

  lemma {:induction false} BetweenParts(s: string)
    requires '/' in s
    ensures |Head(s)| < |s|
  {
    if s[0] != '/' { BetweenParts(s[1..]); }
  }

  lemma {:induction false} PartsStep(part: string, rest: string)
    requires NoSlash(part)
    ensures Parts(part + ("/" + rest)) == [part] + Parts(rest)
  {
    var all := part + ("/" + rest);
    HeadOfPart(part, rest);
    assert all[|part|] == '/' && all[|part| + 1..] == rest;
  }

  /** A key's parts are the five of `cases/<case id>/evidence/<evidence id>/<file name>`. */
  lemma KeyParts(c: string, i: string, n: string)
    requires NoSlash(c) && NoSlash(i) && NoSlash(n)
    ensures Parts(ObjectKey(c, i, n)) == ["cases", c, "evidence", i, n]
  {
    hide Parts, Head;
    var tail := "evidence/" + (i + ("/" + n));
    assert "cases/" + (c + ("/" + tail)) == "cases" + ("/" + (c + ("/" + tail)));
    assert tail == "evidence" + ("/" + (i + ("/" + n)));
    PartsStep("cases", c + ("/" + tail));
    PartsStep(c, tail);
    PartsStep("evidence", i + ("/" + n));
    PartsStep(i, n);
    OnePart(n);
  }

  lemma {:induction false} OnePart(n: string)
    requires NoSlash(n)
    ensures Parts(n) == [n]
  {
  }
}
