/** The table of named string patterns: each pattern's regular-expression source and description,
    and the reverse lookup from a source string to the pattern. */
module Patterns {
  import opened Values

  datatype Pattern = Email | Url | Date | Time | Uuid | Ipv4 | Phone | Username | StrongPassword

  /** The patterns in declaration order, which is also the order `from_regex` scans them in. */
  const All: seq<Pattern> := [Email, Url, Date, Time, Uuid, Ipv4, Phone, Username, StrongPassword]

  /** The source text of each pattern's regular expression: every one is anchored at both
      ends, so it is `^`, the body below, and `$`. */
  function Regex(p: Pattern): (src: string)
    ensures |src| > 2 && src[0] == '^' && src[|src| - 1] == '$'
  {
    "^" + Body(p) + "$"
  }

  /** The text of each source between its two anchors. */
  function Body(p: Pattern): string {
    match p
    case Email => @"[a-zA-Z0-9._%+-]+@[a-zA-Z0-9.-]+\.[a-zA-Z]{2,}"
    case Url => @"https?://[a-zA-Z0-9.-]+\.[a-zA-Z]{2,}[a-zA-Z0-9./_?=&-]*"
    case Date => @"\d{4}-(?:0[1-9]|1[0-2])-(?:0[1-9]|[12]\d|3[01])"
    case Time => @"(?:[01]\d|2[0-3]):[0-5]\d:[0-5]\d"
    case Uuid => @"[0-9a-f]{8}-[0-9a-f]{4}-4[0-9a-f]{3}-[89ab][0-9a-f]{3}-[0-9a-f]{12}"
    case Ipv4 => @"(?:(?:25[0-5]|2[0-4][0-9]|[01]?[0-9][0-9]?)\.){3}(?:25[0-5]|2[0-4][0-9]|[01]?[0-9][0-9]?)"
    case Phone => @"\+?[1-9]\d{1,14}"
    case Username => @"[a-zA-Z0-9_-]{3,16}"
    case StrongPassword => @"[A-Z][a-zA-Z0-9\W_]{7,}"
  }

  /** A human-readable description of each pattern. */
  function Description(p: Pattern): (d: string)
    ensures |d| > 0
  {
    match p
    case Email => "valid email address"
    case Url => "valid URL starting with http:// or https://"
    case Date => "date in YYYY-MM-DD format"
    case Time => "time in HH:MM:SS format"
    case Uuid => "UUID version 4"
    case Ipv4 => "IPv4 address"
    case Phone => "phone number in international format"
    case Username => "username (3-16 characters, alphanumeric with underscore and dash)"
    case StrongPassword => "strong password (min 8 chars, at least one uppercase, one lowercase, one number)"
  }

  /** The first pattern in `candidates` whose source is exactly `pattern`. */
  function Find(candidates: seq<Pattern>, pattern: string): (r: Option<Pattern>)
    ensures r.Some? ==> r.value in candidates && Regex(r.value) == pattern
    ensures r.None? <==> forall p | p in candidates :: Regex(p) != pattern
  {
    if |candidates| == 0 then None
    else if Regex(candidates[0]) == pattern then Some(candidates[0])
    else Find(candidates[1..], pattern)
  }

  /** Each pattern's position in the scan order. */
  function Position(p: Pattern): (i: nat)
    ensures i < |All| && All[i] == p
  {
    match p
    case Email => 0
    case Url => 1
    case Date => 2
    case Time => 3
    case Uuid => 4
    case Ipv4 => 5
    case Phone => 6
    case Username => 7
    case StrongPassword => 8
  }

  /** `from_regex`: the pattern whose source text is exactly `pattern`, if any. */
  function FromRegex(pattern: string): (r: Option<Pattern>)
    ensures r.Some? ==> Regex(r.value) == pattern
    ensures r.None? <==> forall p: Pattern :: Regex(p) != pattern
  {
    AllIsComplete();
    Find(All, pattern)
  }

  /** Every pattern is in the scan list. */
  lemma AllIsComplete()
    ensures forall p: Pattern :: p in All
  {
    forall p: Pattern ensures p in All {
      assert All[Position(p)] == p;
    }
  }

  /** The scan returns the first hit: the earliest candidate whose source is `pattern`. */
  lemma {:induction false} FindIsFirstHit(candidates: seq<Pattern>, pattern: string, i: nat)
    requires i < |candidates| && Regex(candidates[i]) == pattern
    requires forall j | 0 <= j < i :: Regex(candidates[j]) != pattern
    ensures Find(candidates, pattern) == Some(candidates[i])
  {
    if i > 0 {
      assert Regex(candidates[0]) != pattern;
      FindIsFirstHit(candidates[1..], pattern, i - 1);
    }
  }

  /** The length of each source. */
  function SourceLength(p: Pattern): nat {
    match p
    case Email => 48
    case Url => 58
    case Date => 49
    case Time => 35
    case Uuid => 69
    case Ipv4 => 91
    case Phone => 18
    case Username => 21
    case StrongPassword => 25
  }

  lemma RegexLength(p: Pattern)
    ensures |Regex(p)| == SourceLength(p)
  {
  }

  /** The nine sources have nine different lengths, so a pattern is determined by its source. */
  lemma RegexInjective(p: Pattern, q: Pattern)
    requires Regex(p) == Regex(q)
    ensures p == q
  {
    RegexLength(p);
    RegexLength(q);
  }

  /** Round trip: looking up a pattern's own source gives that pattern back. */
  lemma FromRegexRoundTrip(p: Pattern)
    ensures FromRegex(Regex(p)) == Some(p)
  {
    var r := FromRegex(Regex(p));
    RegexInjective(r.value, p);
  }

  /** A string of a length no source has finds nothing. */
  lemma FromRegexMissesOtherText(s: string)
    requires |s| !in {18, 21, 25, 35, 48, 49, 58, 69, 91}
    ensures FromRegex(s) == None
  {
    forall p: Pattern ensures Regex(p) != s {
      RegexLength(p);
    }
  }

  /** The lookup compares text, not meaning: a date expression written with `[0-9]` in place of
      `\d` finds nothing. */
  lemma EquivalentDateSourceNotFound()
    ensures FromRegex(@"^[0-9]{4}-(?:0[1-9]|1[0-2])-(?:0[1-9]|[12]\d|3[01])$") == None
  {
    FromRegexMissesOtherText(@"^[0-9]{4}-(?:0[1-9]|1[0-2])-(?:0[1-9]|[12]\d|3[01])$");
  }
}
