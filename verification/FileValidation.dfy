/** File names as uploads give them: cleaning, checking, and what the cleaned name
    is safe to be used for.  Unicode tables are parameters. */
module FileValidation {
  import opened Wrappers
  import opened ObjectKeys
  import opened Text

  /** Normalisation (NFKC and trimming), the word characters, and lower case. */
  datatype Unicode = Unicode(normalize: string -> string, word: char -> bool, lower: string -> string)

  predicate IsSuffix(s: string) { |s| > 1 && s[0] == '.' && '.' !in s[1..] }

  /** What is used of lower case: it is idempotent, adds no separators, and keeps the shape of a suffix. */
  ghost predicate LowersWell(u: Unicode) {
    && u.lower("") == ""
    && (forall s :: u.lower(u.lower(s)) == u.lower(s))
    && (forall s :: NoSlash(s) ==> NoSlash(u.lower(s)))
    && (forall s :: IsSuffix(s) ==> IsSuffix(u.lower(s)))
  }

  // ----- paths -----

  function Replace(s: string, a: char, b: string): string {
    if s == "" then "" else (if s[0] == a then b else [s[0]]) + Replace(s[1..], a, b)
  }

  /** The index of the last `c`, or -1. */
  function RFind(s: string, c: char): (i: int)
    ensures -1 <= i < |s|
    ensures i >= 0 ==> s[i] == c
    ensures forall k | i < k < |s| :: s[k] != c
  {
    if s == "" then -1 else if s[|s| - 1] == c then |s| - 1 else RFind(s[..|s| - 1], c)
  }

  /** The final component of a path; empty and `.` components do not count. */
  function PathName(path: string): (name: string)
    ensures NoSlash(name) && name != "."
    ensures path != "" && path != "." && NoSlash(path) ==> name == path
  {
    var i := RFind(path, '/');
    var last := path[i + 1..];
    if last != "" && last != "." then last else if i < 0 then "" else PathName(path[..i])
  }

  function Suffix(path: string): (s: string)
    ensures |s| <= |PathName(path)|
  {
    var name := PathName(path);
    var i := RFind(name, '.');
    if 0 < i < |name| - 1 then name[i..] else ""
  }

  lemma SuffixShape(path: string)
    ensures Suffix(path) == "" || IsSuffix(Suffix(path))
    ensures NoSlash(Suffix(path))
  {
    hide PathName, RFind;
  }

  function Stem(path: string): string {
    var name := PathName(path);
    name[..|name| - |Suffix(path)|]
  }

  // ----- cleaning -----

  /** Each run of characters that are not kept becomes one underscore. */
  function Squash(s: string, u: Unicode, inRun: bool): (r: string)
    ensures forall c <- r :: Kept(c, u) || c == '_'
  {
    if s == "" then ""
    else if Kept(s[0], u) then [s[0]] + Squash(s[1..], u, false)
    else (if inRun then "" else "_") + Squash(s[1..], u, true)
  }

  predicate Kept(c: char, u: Unicode) { u.word(c) || c == '.' || c == '-' }

  predicate Edge(c: char) { c == '.' || c == '_' }

  function StripEdges(s: string): (r: string)
    ensures r != "" ==> !Edge(r[0]) && !Edge(r[|r| - 1])
    ensures forall c <- r :: c in s
    decreases |s|
  {
    if s == "" then ""
    else if Edge(s[0]) then StripEdges(s[1..])
    else if Edge(s[|s| - 1]) then StripEdges(s[..|s| - 1])
    else s
  }

  const MAX_STEM := 200

  function CleanStem(name: string, u: Unicode): string {
    Named(StripEdges(Squash(Stem(name), u, false)))
  }

  function Named(stem: string): string { if stem == "" then "evidence" else stem }

  function Cut(stem: string): string { if |stem| > MAX_STEM then stem[..MAX_STEM] else stem }

  function SafeFilename(filename: string, u: Unicode): string {
    var name := Replace(u.normalize(PathName(Replace(filename, '\\', "/"))), '\0', "");
    Cut(CleanStem(name, u)) + u.lower(Suffix(name))
  }

  // ----- checking -----

  datatype Problem = FilenameRequired | InvalidType | MimeMismatch | EmptyFile | FileTooLarge

  const BLOCKED := {".exe", ".sh", ".bat", ".cmd", ".ps1", ".com"}

  const DEFAULT_TYPE := "application/octet-stream"

  datatype Validator = Validator(allowed: set<string>, mimes: map<string, set<string>>)

  function UpTo(s: string, c: char): (r: string)
    ensures r <= s && c !in r && (r == s || s[|r|] == c)
  {
    if s == "" || s[0] == c then "" else [s[0]] + UpTo(s[1..], c)
  }

  function ValidateMetadata(v: Validator, u: Unicode, filename: Option<string>, contentType: Option<string>)
    : Result<(string, string), Problem>
  {
    if filename.None? || filename.value == "" then Err(FilenameRequired)
    else
      var cleaned := SafeFilename(filename.value, u);
      var extension := u.lower(Suffix(cleaned));
      if Blocked(extension) || extension !in v.allowed then Err(InvalidType)
      else if DeclaredType(u, contentType) !in MimesOf(v, extension) then Err(MimeMismatch)
      else Ok((cleaned, extension))
  }

  predicate Blocked(extension: string) { extension in BLOCKED }

  function MimesOf(v: Validator, extension: string): set<string> {
    if extension in v.mimes then v.mimes[extension] else {DEFAULT_TYPE}
  }

  /** The declared type without its parameters. */
  function DeclaredType(u: Unicode, contentType: Option<string>): (t: string)
    ensures ';' !in t
  {
    UpTo(u.lower(if contentType.None? || contentType.value == "" then DEFAULT_TYPE else contentType.value), ';')
  }

  function ValidateSize(maxSize: int, size: int): Option<Problem> {
    if size <= 0 then Some(EmptyFile) else if size > maxSize then Some(FileTooLarge) else None
  }

  // ----- what cleaning gives -----

  /** The shape of every cleaned name: a stem of kept characters that does not start
      with a dot or an underscore, and a lowered suffix or none. */
  lemma CleanedShape(filename: string, u: Unicode) returns (stem: string, suffix: string)
    requires LowersWell(u)
    ensures SafeFilename(filename, u) == stem + u.lower(suffix)
    ensures 0 < |stem| <= 200 && stem[0] != '.' && stem[0] != '_' && NoSlash(stem)
    ensures |stem| < 200 ==> stem[|stem| - 1] != '.' && stem[|stem| - 1] != '_'
    ensures stem <= "evidence" || forall c <- stem :: u.word(c) || c == '.' || c == '-' || c == '_'
    ensures suffix == "" || IsSuffix(suffix)
    ensures NoSlash(u.lower(suffix))
  {
    hide PathName, Replace, Squash, StripEdges, Stem, Suffix;
    var name := Replace(u.normalize(PathName(Replace(filename, '\\', "/"))), '\0', "");
    var whole := CleanStem(name, u);
    stem := Cut(whole);
    suffix := Suffix(name);
    SuffixShape(name);
    StemHasNoSlash(name, u);
    CleanedEdges(name, u);
    forall c | c in stem && whole != "evidence" ensures Kept(c, u) || c == '_' {
      assert c in whole;
    }
  }

  lemma CleanedEdges(name: string, u: Unicode)
    ensures var stem := CleanStem(name, u); stem != "" && !Edge(stem[0]) && !Edge(stem[|stem| - 1])
    ensures CleanStem(name, u) == "evidence" || forall c <- CleanStem(name, u) :: Kept(c, u) || c == '_'
  {
    hide Squash, StripEdges, Stem;
  }

  lemma {:induction false} SquashNoSlash(s: string, u: Unicode, inRun: bool)
    requires NoSlash(s)
    ensures NoSlash(Squash(s, u, inRun))
  {
    if s != "" { SquashNoSlash(s[1..], u, !Kept(s[0], u)); }
  }

  lemma StemHasNoSlash(name: string, u: Unicode)
    ensures NoSlash(CleanStem(name, u))
  {
    hide PathName, Squash, StripEdges, Suffix;
    SquashNoSlash(Stem(name), u, false);
  }

  /** A cleaned name is never empty, never holds a separator and never starts with a dot. */
  lemma CleanedIsSafe(filename: string, u: Unicode)
    requires LowersWell(u)
    ensures var cleaned := SafeFilename(filename, u); cleaned != "" && NoSlash(cleaned) && cleaned[0] != '.'
  {
    hide SafeFilename;
    var stem, suffix := CleanedShape(filename, u);
    assert SafeFilename(filename, u)[0] == stem[0];
  }

  lemma {:induction false} RFindIs(s: string, c: char, n: nat)
    requires n < |s| && s[n] == c && forall k | n < k < |s| :: s[k] != c
    ensures RFind(s, c) == n
  {
    hide RFind;
  }

  lemma {:induction false} RFindAt(s: string, c: char, t: string)
    requires c !in t
    ensures RFind(s + [c] + t, c) == |s|
  {
    hide RFind;
    var all := s + [c] + t;
    LastOf(s, c, t);
    RFindIs(all, c, |s|);
  }

  lemma LastOf(s: string, c: char, t: string)
    requires c !in t
    ensures var all := s + [c] + t; all[|s|] == c && forall k | |s| < k < |all| :: all[k] != c
  {
    var all := s + [c] + t;
    forall k | |s| < k < |all| ensures all[k] != c {
      assert all[k] == t[k - |s| - 1];
    }
  }

  /** A name splits at its last dot, unless that is its first or its last character. */
  lemma SuffixOf(stem: string, suffix: string)
    requires stem != "" && NoSlash(stem) && NoSlash(suffix) && IsSuffix(suffix)
    ensures Suffix(stem + suffix) == suffix && Stem(stem + suffix) == stem
  {
    hide PathName, RFind;
    var all := stem + suffix;
    assert NoSlash(all) && |all| >= 3;
    assert PathName(all) == all;
    assert all == stem + ['.'] + suffix[1..];
    RFindAt(stem, '.', suffix[1..]);
    assert all[|stem|..] == suffix && all[..|stem|] == stem;
  }

  /** Without such a dot the whole name is the stem. */
  lemma NoSuffix(name: string)
    requires NoSlash(name) && name != "" && name != "."
    requires '.' !in name[1..] || name[|name| - 1] == '.'
    ensures Suffix(name) == "" && Stem(name) == name
  {
    hide PathName, RFind;
    assert PathName(name) == name;
    var i := RFind(name, '.');
    if 0 < i { assert name[1..][i - 1] == '.'; }
  }

  /** Empty and `.` components at the end of a path do not count, and nothing is left of such a path alone. */
  lemma {:induction false} TrailingDropped(path: string, tail: string)
    requires tail == "" || tail == "."
    ensures PathName(path + ['/'] + tail) == PathName(path) && PathName(tail) == ""
  {
    hide RFind;
    var all := path + ['/'] + tail;
    RFindAt(path, '/', tail);
    assert all[|path| + 1..] == tail && all[..|path|] == path;
    assert NoSlash(tail);
    assert RFind(tail, '/') == -1;
    assert tail[0..] == tail;
  }

  /** The declared type: what is in front of the first semicolon of the lowered text, which
      stands for unknown bytes if the upload has none. */
  predicate Declares(u: Unicode, contentType: Option<string>, t: string) {
    var given := contentType.Some? && contentType.value != "";
    var full := u.lower(if given then contentType.value else "application/octet-stream");
    ';' !in t && t <= full && (t == full || full[|t|] == ';')
  }

  predicate Runnable(extension: string) { extension in {".exe", ".sh", ".bat", ".cmd", ".ps1", ".com"} }

  /** The type is one that the table has for the extension, or the one of unknown bytes if it has none. */
  predicate Fits(v: Validator, extension: string, t: string) {
    if extension in v.mimes then t in v.mimes[extension] else t == "application/octet-stream"
  }

  predicate Accepts(v: Validator, extension: string, t: string) {
    extension in v.allowed && !Runnable(extension) && Fits(v, extension, t)
  }

  /** Exactly what the check answers: a missing name, a refused extension of the cleaned
      name, and a declared type that does not fit are told apart, in this order, and
      whatever is left is accepted under its cleaned name. */
  lemma MetadataVerdict(v: Validator, u: Unicode, filename: Option<string>, contentType: Option<string>)
    ensures Declares(u, contentType, DeclaredType(u, contentType))
    ensures var r, named := ValidateMetadata(v, u, filename, contentType), filename.Some? && filename.value != "";
            && (r == Err(FilenameRequired) <==> !named)
            && (named ==>
                  var cleaned, t := SafeFilename(filename.value, u), DeclaredType(u, contentType);
                  var extension := u.lower(Suffix(cleaned));
                  && (r == Ok((cleaned, extension)) <==> Accepts(v, extension, t))
                  && (r == Err(InvalidType) <==> extension !in v.allowed || Runnable(extension))
                  && (r == Err(MimeMismatch) <==>
                        extension in v.allowed && !Runnable(extension) && !Fits(v, extension, t)))
  {
    hide SafeFilename, Suffix, DeclaredType, Declares, Blocked, MimesOf, Runnable, Fits;
    DeclaredIs(u, contentType);
    if filename.Some? {
      var extension := u.lower(Suffix(SafeFilename(filename.value, u)));
      RefusedIs(v, extension, DeclaredType(u, contentType));
    }
  }

  lemma DeclaredIs(u: Unicode, contentType: Option<string>)
    ensures Declares(u, contentType, DeclaredType(u, contentType))
  {
    hide UpTo;
  }

  lemma RefusedIs(v: Validator, extension: string, t: string)
    ensures Runnable(extension) <==> Blocked(extension)
    ensures Fits(v, extension, t) <==> t in MimesOf(v, extension)
  {
  }

  /** What acceptance means: the checked extension is the cleaned name's own, it is
      allowed and not blocked, the declared type fits it, and the name is at most
      200 longer than it. */
  lemma AcceptedNames(v: Validator, u: Unicode, filename: Option<string>, contentType: Option<string>)
    requires LowersWell(u)
    ensures var r := ValidateMetadata(v, u, filename, contentType);
            r.Ok? ==>
              var (cleaned, extension) := r.value;
              && extension == u.lower(Suffix(cleaned))
              && Accepts(v, extension, DeclaredType(u, contentType))
              && cleaned != "" && NoSlash(cleaned) && cleaned[0] != '.'
              && |cleaned| <= 200 + |extension|
  {
    hide SafeFilename, DeclaredType, PathName, RFind;
    MetadataVerdict(v, u, filename, contentType);
    var r := ValidateMetadata(v, u, filename, contentType);
    if r.Ok? {
      var stem, suffix := CleanedShape(filename.value, u);
      CleanedIsSafe(filename.value, u);
      if suffix != "" {
        SuffixOf(stem, u.lower(suffix));
      }
    }
  }

  /** The object key made from an accepted name splits back into its case id, evidence id and name. */
  lemma AcceptedKeySplits(v: Validator, u: Unicode, filename: Option<string>, contentType: Option<string>,
                          c: string, i: string, c': string, i': string, n': string)
    requires LowersWell(u) && ValidateMetadata(v, u, filename, contentType).Ok?
    requires NoSlash(c) && NoSlash(i) && NoSlash(c') && NoSlash(i')
    ensures var name := ValidateMetadata(v, u, filename, contentType).value.0;
            NoSlash(name) && (ObjectKey(c, i, name) == ObjectKey(c', i', n') <==> c == c' && i == i' && name == n')
  {
    hide ValidateMetadata, ObjectKey;
    var name := ValidateMetadata(v, u, filename, contentType).value.0;
    AcceptedNames(v, u, filename, contentType);
    ObjectKeyInjective(c, i, name, c', i', n');
  }

  // ----- clean names stay as they are -----

  lemma {:induction false} ReplaceNothing(s: string, a: char, b: string)
    requires a !in s
    ensures Replace(s, a, b) == s
  {
    if s != "" { ReplaceNothing(s[1..], a, b); }
  }

  lemma {:induction false} SquashNothing(s: string, u: Unicode, inRun: bool)
    requires forall c <- s :: Kept(c, u)
    ensures Squash(s, u, inRun) == s
  {
    if s != "" { SquashNothing(s[1..], u, false); }
  }

  lemma {:induction false} ReplaceJoins(s: string, t: string, a: char, b: string)
    ensures Replace(s + t, a, b) == Replace(s, a, b) + Replace(t, a, b)
  {
    if s == "" {
      assert s + t == t;
    } else {
      ReplaceJoins(s[1..], t, a, b);
      assert (s + t)[0] == s[0] && (s + t)[1..] == s[1..] + t;
      Assoc(if s[0] == a then b else [s[0]], Replace(s[1..], a, b), Replace(t, a, b));
    }
  }

  lemma {:induction false} SquashJoins(s: string, t: string, u: Unicode)
    requires forall c <- s :: Kept(c, u)
    ensures Squash(s + t, u, false) == s + Squash(t, u, false)
  {
    if s == "" {
      assert s + t == t;
    } else {
      SquashJoins(s[1..], t, u);
      assert (s + t)[0] == s[0] && (s + t)[1..] == s[1..] + t;
      Assoc([s[0]], s[1..], Squash(t, u, false));
      assert [s[0]] + s[1..] == s;
    }
  }

  lemma {:induction false} SquashRun(bad: string, t: string, u: Unicode)
    requires forall c <- bad :: !Kept(c, u)
    requires t == "" || Kept(t[0], u)
    ensures Squash(bad + t, u, true) == Squash(t, u, false)
    ensures bad != "" ==> Squash(bad + t, u, false) == "_" + Squash(t, u, false)
  {
    if bad == "" {
      assert bad + t == t;
    } else {
      SquashRun(bad[1..], t, u);
      assert (bad + t)[1..] == bad[1..] + t;
    }
  }

  /** A text cut into kept parts and what lies between them. */
  function Weave(kept: seq<string>, between: seq<string>): string
    requires |kept| == |between| + 1
  {
    if between == [] then kept[0] else kept[0] + (between[0] + Weave(kept[1..], between[1..]))
  }

  function Underscores(n: nat): (r: seq<string>)
    ensures |r| == n
  {
    if n == 0 then [] else ["_"] + Underscores(n - 1)
  }

  /** Kept parts of kept characters, separated by runs of others; only the outermost parts may be empty. */
  predicate Woven(kept: seq<string>, runs: seq<string>, u: Unicode) {
    && |kept| == |runs| + 1
    && (forall i | 0 <= i < |kept| :: AllKept(kept[i], u) && (0 < i < |runs| ==> kept[i] != ""))
    && (forall i | 0 <= i < |runs| :: runs[i] != "" && NoneKept(runs[i], u))
  }

  predicate AllKept(s: string, u: Unicode) { forall c <- s :: u.word(c) || c == '.' || c == '-' }

  predicate NoneKept(s: string, u: Unicode) { forall c <- s :: !u.word(c) && c != '.' && c != '-' }

  lemma KeptChars(s: string, u: Unicode)
    ensures AllKept(s, u) <==> forall c <- s :: Kept(c, u)
    ensures NoneKept(s, u) <==> forall c <- s :: !Kept(c, u)
  {
  }

  /** However many runs of other characters there are, each becomes one underscore. */
  lemma {:induction false} SquashWoven(kept: seq<string>, runs: seq<string>, u: Unicode)
    requires Woven(kept, runs, u)
    ensures Squash(Weave(kept, runs), u, false) == Weave(kept, Underscores(|runs|))
  {
    hide Squash, Kept;
    if runs == [] {
      KeptChars(kept[0], u);
      SquashNothing(kept[0], u, false);
    } else {
      var tail := Weave(kept[1..], runs[1..]);
      WovenTail(kept, runs, u);
      KeptChars(kept[0], u);
      KeptChars(runs[0], u);
      SquashWoven(kept[1..], runs[1..], u);
      SquashJoins(kept[0], runs[0] + tail, u);
      SquashRun(runs[0], tail, u);
      assert Underscores(|runs|)[1..] == Underscores(|runs| - 1);
    }
  }

  lemma WovenTail(kept: seq<string>, runs: seq<string>, u: Unicode)
    requires Woven(kept, runs, u) && runs != []
    ensures Woven(kept[1..], runs[1..], u)
    ensures var tail := Weave(kept[1..], runs[1..]); tail == "" || Kept(tail[0], u)
  {
    hide Kept;
    if kept[1] != "" {
      KeptChars(kept[1], u);
      assert AllKept(kept[1], u) && kept[1][0] in kept[1];
      assert Weave(kept[1..], runs[1..])[0] == kept[1][0];
    }
  }

  /** What an upload's name may hold without being a path or holding a NUL. */
  predicate Plain(s: string) { forall c <- s :: c != '/' && c != '\\' && c != '\0' }

  lemma {:induction false} PlainIsName(name: string)
    requires Plain(name) && name != "" && name != "."
    ensures PathName(name) == name && Replace(name, '\\', "/") == name && Replace(name, '\0', "") == name
    ensures Stem(name) + Suffix(name) == name
  {
    hide RFind, Replace;
    assert NoSlash(name);
    ReplaceNothing(name, '\\', "/");
    ReplaceNothing(name, '\0', "");
  }

  /** Cleaning a plain, normalised name works on its stem and its suffix alone. */
  lemma {:induction false} CleanedParts(name: string, u: Unicode)
    requires Plain(name) && name != "" && name != "." && u.normalize(name) == name
    ensures SafeFilename(name, u) == Cut(Named(StripEdges(Squash(Stem(name), u, false)))) + u.lower(Suffix(name))
  {
    hide RFind, PathName, Squash, Replace, Suffix, StripEdges, Stem;
    PlainIsName(name);
  }

  predicate OnlyEdges(s: string) { forall c <- s :: c == '.' || c == '_' }

  predicate CoreAt(core: string, s: string, i: nat) {
    i + |core| <= |s| && s[i..i + |core|] == core && OnlyEdges(s[..i]) && OnlyEdges(s[i + |core|..])
  }

  /** `core` is what is left of `s` without the dots and underscores at its ends. */
  predicate IsCore(core: string, s: string) {
    && (core != "" ==> core[0] != '.' && core[0] != '_' && core[|core| - 1] != '.' && core[|core| - 1] != '_')
    && exists i | 0 <= i <= |s| :: CoreAt(core, s, i)
  }

  lemma {:induction false} StripsToCore(s: string) returns (i: nat)
    ensures i <= |s| && CoreAt(StripEdges(s), s, i)
    decreases |s|
  {
    hide CoreAt, StripEdges;
    StripsOne(s);
    if s != "" && Edge(s[0]) {
      i := StripsToCore(s[1..]);
      CoreInside([s[0]], StripEdges(s), s[1..], i, "");
      assert [s[0]] + s[1..] + "" == s;
      i := 1 + i;
    } else if s != "" && Edge(s[|s| - 1]) {
      i := StripsToCore(s[..|s| - 1]);
      CoreInside("", StripEdges(s), s[..|s| - 1], i, [s[|s| - 1]]);
      assert "" + s[..|s| - 1] + [s[|s| - 1]] == s;
    } else {
      i := 0;
      WholeCore(s);
    }
  }

  lemma {:induction false} StripsOne(s: string)
    ensures StripEdges(s) == if s == "" then ""
                             else if Edge(s[0]) then StripEdges(s[1..])
                             else if Edge(s[|s| - 1]) then StripEdges(s[..|s| - 1])
                             else s
  {
  }

  lemma WholeCore(s: string)
    ensures CoreAt(s, s, 0)
  {
  }

  lemma CoreInside(a: string, core: string, s: string, i: nat, b: string)
    requires CoreAt(core, s, i) && OnlyEdges(a) && OnlyEdges(b)
    ensures CoreAt(core, a + s + b, |a| + i)
  {
    var all := a + s + b;
    assert all[..|a| + i] == a + s[..i];
    assert all[|a| + i + |core|..] == s[i + |core|..] + b;
    assert all[|a| + i..|a| + i + |core|] == s[i..i + |core|];
  }

  /** Cleaning only lowers the suffix, if there is one, of a name whose stem already has
      kept characters only, no dot or underscore at either end and at most 200 characters. */
  lemma CleanNamesStay(name: string, u: Unicode)
    requires Plain(name) && name != "" && name != "." && u.normalize(name) == name
    requires var stem := Stem(name);
             0 < |stem| <= 200 && IsCore(stem, stem) && AllKept(stem, u)
    ensures SafeFilename(name, u) == Stem(name) + u.lower(Suffix(name))
  {
    hide SafeFilename, Squash, Stem, Suffix;
    KeptChars(Stem(name), u);
    SquashNothing(Stem(name), u, false);
    CleanedParts(name, u);
  }

  /** Whatever runs of other characters the stem of a name has, each becomes one
      underscore, before dots and underscores are taken off its ends and it is cut. */
  lemma RunsBecomeUnderscores(name: string, kept: seq<string>, runs: seq<string>, u: Unicode) returns (core: string)
    requires Plain(name) && name != "" && name != "." && u.normalize(name) == name
    requires Woven(kept, runs, u) && Stem(name) == Weave(kept, runs)
    ensures IsCore(core, Weave(kept, Underscores(|runs|)))
    ensures SafeFilename(name, u)
         == (if core == "" then "evidence" else if |core| > 200 then core[..200] else core) + u.lower(Suffix(name))
  {
    hide SafeFilename, Squash, Stem, Suffix, StripEdges, Weave;
    SquashWoven(kept, runs, u);
    CleanedParts(name, u);
    core := StripEdges(Weave(kept, Underscores(|runs|)));
    var i := StripsToCore(Weave(kept, Underscores(|runs|)));
  }

  /** A plain name with an extension is accepted, whatever its stem looks like, exactly when
      the lowered extension is allowed and the declared type fits it, and then under the
      name that cleaning gives it. */
  lemma ExtensionDecides(v: Validator, u: Unicode, stem: string, suffix: string, contentType: Option<string>)
    requires LowersWell(u) && Plain(stem + suffix) && u.normalize(stem + suffix) == stem + suffix
    requires stem != "" && IsSuffix(suffix)
    ensures var r := ValidateMetadata(v, u, Some(stem + suffix), contentType);
            var (extension, t) := (u.lower(suffix), DeclaredType(u, contentType));
            && Declares(u, contentType, t)
            && (r == Ok((SafeFilename(stem + suffix, u), extension)) <==> Accepts(v, extension, t))
            && (r == Err(InvalidType) <==> extension !in v.allowed || Runnable(extension))
            && (r == Err(MimeMismatch) <==> extension in v.allowed && !Runnable(extension) && !Fits(v, extension, t))
  {
    hide SafeFilename, DeclaredType, PathName, Suffix, Stem, ValidateMetadata, Declares;
    MetadataVerdict(v, u, Some(stem + suffix), contentType);
    PlainParts(stem, suffix);
    SuffixOf(stem, suffix);
    ExtensionStays(stem, suffix, u);
  }

  lemma PlainParts(stem: string, suffix: string)
    requires Plain(stem + suffix)
    ensures NoSlash(stem) && NoSlash(suffix)
  {
    assert forall c <- stem :: c in stem + suffix;
    assert forall c <- suffix :: c in stem + suffix;
  }

  lemma ExtensionStays(stem: string, suffix: string, u: Unicode)
    requires LowersWell(u) && Plain(stem + suffix) && u.normalize(stem + suffix) == stem + suffix
    requires stem != "" && IsSuffix(suffix) && NoSlash(suffix) && Suffix(stem + suffix) == suffix
    ensures u.lower(Suffix(SafeFilename(stem + suffix, u))) == u.lower(suffix)
  {
    hide SafeFilename, PathName, Suffix, Stem, Squash, StripEdges, Cut, Named;
    CleanedParts(stem + suffix, u);
    CleanedStem(stem + suffix, u);
    SuffixOf(Cut(Named(StripEdges(Squash(Stem(stem + suffix), u, false)))), u.lower(suffix));
  }

  lemma {:induction false} CleanedStem(name: string, u: Unicode)
    ensures var stem := Cut(Named(StripEdges(Squash(Stem(name), u, false)))); stem != "" && NoSlash(stem)
  {
    hide Squash, StripEdges, Stem;
    StemHasNoSlash(name, u);
  }

  /** A clean name with an allowed extension and a fitting type is accepted as it is, but
      for the case of its extension. */
  lemma CleanNamesAccepted(v: Validator, u: Unicode, stem: string, suffix: string, contentType: Option<string>)
    requires LowersWell(u) && Plain(stem + suffix) && u.normalize(stem + suffix) == stem + suffix
    requires 0 < |stem| <= 200 && IsCore(stem, stem) && AllKept(stem, u) && IsSuffix(suffix)
    requires Accepts(v, u.lower(suffix), DeclaredType(u, contentType))
    ensures ValidateMetadata(v, u, Some(stem + suffix), contentType) == Ok((stem + u.lower(suffix), u.lower(suffix)))
  {
    hide SafeFilename, DeclaredType, PathName, Suffix, Stem, ValidateMetadata, Accepts, IsCore;
    ExtensionDecides(v, u, stem, suffix, contentType);
    PlainParts(stem, suffix);
    SuffixOf(stem, suffix);
    CleanNamesStay(stem + suffix, u);
  }

  /** A name is normalised before anything else looks at it, and NULs in it vanish. */
  lemma NormalizedFirst(name: string, a: string, b: string, u: Unicode)
    requires Plain(name) && name != "" && name != "." && Plain(a + b) && a + b != "" && a + b != "."
    requires u.normalize(name) in {a + b, a + ['\0'] + b} && u.normalize(a + b) == a + b
    ensures SafeFilename(name, u) == SafeFilename(a + b, u)
  {
    hide PathName, CleanStem, Suffix;
    PlainIsName(name);
    PlainIsName(a + b);
    ReplaceJoins(a + ['\0'], b, '\0', "");
    ReplaceJoins(a, ['\0'], '\0', "");
    ReplaceJoins(a, b, '\0', "");
    assert Replace(['\0'], '\0', "") == "";
    assert Replace(a, '\0', "") + "" == Replace(a, '\0', "");
  }

  lemma {:induction false} PathNameAfter(dir: string, name: string)
    requires NoSlash(name) && name != "" && name != "."
    ensures PathName(dir + ['/'] + name) == name
  {
    hide RFind;
    var all := dir + ['/'] + name;
    RFindAt(dir, '/', name);
    assert all[|dir| + 1..] == name;
  }

  /** Directories in front of the name do not matter, with either separator. */
  lemma DirectoriesDropped(dir: string, separator: char, name: string, u: Unicode)
    requires (separator == '/' || separator == '\\') && Plain(name) && name != "" && name != "."
    ensures SafeFilename(dir + [separator] + name, u) == SafeFilename(name, u)
  {
    hide RFind, PathName, CleanStem, Suffix;
    ReplaceNothing(name, '\\', "/");
    ReplaceJoins(dir + [separator], name, '\\', "/");
    ReplaceJoins(dir, [separator], '\\', "/");
    assert Replace([separator], '\\', "/") == "/";
    assert Replace(dir + [separator] + name, '\\', "/") == Replace(dir, '\\', "/") + ['/'] + name;
    PathNameAfter(Replace(dir, '\\', "/"), name);
    assert PathName(name) == name;
  }
}
