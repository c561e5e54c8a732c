/** Names and paths in the download quarantine (src/host/host-downloads.ts). */
module DownloadNames {
  import opened Wrappers
  import opened Strings

  const FALLBACK := "download"
  const MAX_NAME := 240
  const MAX_EXTENSION := 16
  const LAST_SUFFIX := 999

  predicate Control(c: char) {
    c as int <= 0x1f || c as int == 0x7f
  }

  predicate Separator(c: char) {
    c == '/' || c == '\\'
  }

  function StripControls(s: string): (r: string)
    ensures forall i | 0 <= i < |r| :: !Control(r[i])
  {
    if s == "" then "" else (if Control(s[0]) then "" else [s[0]]) + StripControls(s[1..])
  }

  /** Each run of such characters becomes one space. */
  function Squeeze(s: string, separators: bool): string {
    if s == "" then ""
    else if !Matches(s[0], separators) then [s[0]] + Squeeze(s[1..], separators)
    else if |s| > 1 && Matches(s[1], separators) then Squeeze(s[1..], separators)
    else " " + Squeeze(s[1..], separators)
  }

  predicate Matches(c: char, separators: bool) {
    if separators then Separator(c) else Space(c)
  }

  function TrimStart(s: string, dots: bool): (r: string)
    ensures |r| <= |s| && r == s[|s| - |r|..]
    ensures r != "" ==> !Space(r[0]) && (dots ==> r[0] != '.')
  {
    if s != "" && (Space(s[0]) || (dots && s[0] == '.')) then TrimStart(s[1..], dots) else s
  }

  function TrimEnd(s: string, dots: bool): (r: string)
    ensures |r| <= |s| && r == s[..|r|]
  {
    if s != "" && (Space(s[|s| - 1]) || (dots && s[|s| - 1] == '.')) then TrimEnd(s[..|s| - 1], dots)
    else s
  }

  function Trim(s: string, dots: bool): string {
    TrimEnd(TrimStart(s, dots), dots)
  }

  /** The position just after the last dot, or 0. */
  function AfterLastDot(s: string): (n: nat)
    ensures n <= |s|
  {
    if s == "" then 0 else if s[|s| - 1] == '.' then |s| else AfterLastDot(s[..|s| - 1])
  }

  /** A short extension starts at that index; None when there is none. */
  function ShortExtension(name: string): (dot: Option<nat>)
    ensures dot.Some? ==> 0 < dot.value < |name| && |name| - dot.value <= MAX_EXTENSION
  {
    var after := AfterLastDot(name);
    if after >= 2 && |name| - (after - 1) <= MAX_EXTENSION then Some(after - 1) else None
  }

  function Clean(suggested: string): string {
    var flat := Trim(Squeeze(StripControls(suggested), true), false);
    Trim(Trim(Squeeze(flat, false), false), true)
  }

  /** A long name is cut, before a short extension when it has one. */
  function Shorten(name: string): string {
    if |name| <= MAX_NAME then name
    else
      var dot := ShortExtension(name);
      if dot.Some? then name[..MAX_NAME - (|name| - dot.value)] + name[dot.value..] else name[..MAX_NAME]
  }

  function Normalize(suggested: string): string {
    if Clean(suggested) == "" then FALLBACK else Shorten(Clean(suggested))
  }

  predicate Plain(s: string) {
    forall i | 0 <= i < |s| :: !Control(s[i]) && !Separator(s[i])
  }

  /** One path segment that is not hidden and not a step up. */
  predicate Safe(name: string) {
    0 < |name| <= MAX_NAME && Plain(name) && name[0] != '.' && !Space(name[0])
  }

  lemma {:induction false} SqueezeSeparators(s: string)
    requires forall i | 0 <= i < |s| :: !Control(s[i])
    ensures Plain(Squeeze(s, true))
  {
    if s != "" { SqueezeSeparators(s[1..]); }
  }

  lemma {:induction false} SqueezeSpaces(s: string)
    requires Plain(s)
    ensures Plain(Squeeze(s, false))
  {
    if s != "" { SqueezeSpaces(s[1..]); }
  }

  lemma TrimPlain(s: string, dots: bool)
    requires Plain(s)
    ensures Plain(Trim(s, dots)) && |Trim(s, dots)| <= |s|
    ensures Trim(s, dots) != "" ==> !Space(Trim(s, dots)[0]) && (dots ==> Trim(s, dots)[0] != '.')
  {}

  lemma CleanIsPlain(suggested: string)
    ensures Plain(Clean(suggested))
    ensures Clean(suggested) != "" ==> Clean(suggested)[0] != '.' && !Space(Clean(suggested)[0])
  {
    var stripped := StripControls(suggested);
    SqueezeSeparators(stripped);
    TrimPlain(Squeeze(stripped, true), false);
    var flat := Trim(Squeeze(stripped, true), false);
    SqueezeSpaces(flat);
    TrimPlain(Squeeze(flat, false), false);
    TrimPlain(Trim(Squeeze(flat, false), false), true);
  }

  lemma ShortenIsSafe(name: string)
    requires name != "" && Plain(name) && name[0] != '.' && !Space(name[0])
    ensures Safe(Shorten(name))
  {}

  /** Whatever name is suggested, the normalized one is a safe single segment. */
  lemma NormalizeIsSafe(suggested: string)
    ensures Safe(Normalize(suggested))
  {
    CleanIsPlain(suggested);
    if Clean(suggested) != "" { ShortenIsSafe(Clean(suggested)); } else { FallbackIsSafe(); }
    var name := Clean(suggested);
    assert name == "" ==> Normalize(suggested) == FALLBACK;
  }

  lemma FallbackIsSafe()
    ensures Safe(FALLBACK)
  {
    assert FALLBACK[0] == 'd';
  }

  // ---- suffixes ----

  function Digits(n: nat): string {
    if n < 10 then [('0' as int + n) as char] else Digits(n / 10) + [('0' as int + n % 10) as char]
  }

  function AddSuffix(name: string, suffix: nat): string {
    var tag := "-" + Digits(suffix);
    var dot := ShortExtension(name);
    if dot.Some? then name[..dot.value] + tag + name[dot.value..] else name + tag
  }

  function Candidate(name: string, n: nat): string {
    if n == 0 then name else AddSuffix(name, n)
  }

  lemma {:induction false} DigitsArePlain(n: nat)
    ensures Plain(Digits(n))
  {
    if n >= 10 { DigitsArePlain(n / 10); }
  }

  lemma CandidatesArePlain(name: string, n: nat)
    requires Plain(name)
    ensures Plain(Candidate(name, n))
  {
    DigitsArePlain(n);
  }

  // ---- keys and paths ----

  function JoinAt(a: string, c: char, b: string): string {
    a + [c] + b
  }

  /** The last separator divides a joined string when the second part has none. */
  lemma LastSeparatorSplits(a: string, b: string, x: string, y: string, c: char)
    requires c !in b && c !in y && JoinAt(a, c, b) == JoinAt(x, c, y)
    ensures a == x && b == y
  {
    Pieces(a, b, c, |x|);
    Pieces(x, y, c, |a|);
  }

  lemma Pieces(a: string, b: string, c: char, k: nat)
    ensures var s := JoinAt(a, c, b);
            s[|a|] == c && s[..|a|] == a && s[|a| + 1..] == b
            && (|a| < k < |s| ==> s[k] in b)
  {
    if |a| < k < |JoinAt(a, c, b)| { assert JoinAt(a, c, b)[k] == b[k - |a| - 1]; }
  }

  function IndexKey(profile: string, name: string): string {
    JoinAt(profile, '\0', name)
  }

  function PathOf(root: string, profile: string, name: string): string {
    JoinAt(JoinAt(root, '/', profile), '/', name)
  }

  /** Plain names give each profile its own keys and each name its own file. */
  lemma KeysAndPathsAreDistinct(root: string, p: string, n: string, q: string, m: string)
    requires Plain(n) && Plain(m)
    ensures IndexKey(p, n) == IndexKey(q, m) <==> p == q && n == m
    ensures PathOf(root, p, n) == PathOf(root, q, m) <==> p == q && n == m
  {
    if IndexKey(p, n) == IndexKey(q, m) { LastSeparatorSplits(p, n, q, m, '\0'); }
    if PathOf(root, p, n) == PathOf(root, q, m) {
      LastSeparatorSplits(JoinAt(root, '/', p), n, JoinAt(root, '/', q), m, '/');
      Pieces(root, p, '/', 0);
      Pieces(root, q, '/', 0);
    }
  }
}
