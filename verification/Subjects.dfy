/** The subject taxonomy `fiducia.<group>.<event>.v<version>` (src/subjects.rs), the
    guards built on it and the NATS matching rule its wildcards rely on. */
module Subjects {
  import opened Wrappers

  const ROOT: string := "fiducia"
  const U32_LIMIT: nat := 0x1_0000_0000

  datatype SubjectError =
    | Empty
    | InvalidChar(token: string)
    | IdentifierInSubject(token: string)
    | ZeroVersion
    | Malformed(subject: string)

  datatype Subject = Subject(group: string, event: string, version: nat)

  // ---- Tokens ---------------------------------------------------------------------

  predicate IsDigit(c: char) { '0' <= c <= '9' }

  predicate IsTokenChar(c: char) { 'a' <= c <= 'z' || IsDigit(c) || c == '-' }

  predicate IsHexDigit(c: char) { IsDigit(c) || 'a' <= c <= 'f' || 'A' <= c <= 'F' }

  predicate IsHyphenatedUuid(s: string) {
    |s| == 36 && forall i | 0 <= i < 36 :: if i in {8, 13, 18, 23} then s[i] == '-' else IsHexDigit(s[i])
  }

  /** The spellings the UUID parser accepts: 32 hexadecimal digits, the hyphenated form of
      section 4 of RFC 9562, that form in braces, and that form as a URN. */
  predicate IsUuidText(s: string) {
    || (|s| == 32 && forall i | 0 <= i < 32 :: IsHexDigit(s[i]))
    || IsHyphenatedUuid(s)
    || (|s| == 38 && s[0] == '{' && s[37] == '}' && IsHyphenatedUuid(s[1..37]))
    || (|s| == 45 && s[..9] == "urn:uuid:" && IsHyphenatedUuid(s[9..]))
  }

  function ValidateToken(token: string): Result<(), SubjectError> {
    if token == "" then Failure(Empty)
    else if (exists i | 0 <= i < |token| :: !IsTokenChar(token[i])) || token[0] == '-' || token[|token| - 1] == '-' then
      Failure(InvalidChar(token))
    else if IsUuidText(token) then Failure(IdentifierInSubject(token))
    else Success(())
  }

  // ---- Decimal numbers ------------------------------------------------------------

  function Decimal(n: nat): (s: string)
    ensures |s| >= 1 && forall i | 0 <= i < |s| :: IsDigit(s[i])
  {
    if n < 10 then [DigitChar(n)] else Decimal(n / 10) + [DigitChar(n % 10)]
  }

  function DigitChar(d: nat): (c: char)
    requires d < 10
    ensures IsDigit(c) && DigitValue(c) == d
  {
    '0' + d as char
  }

  function DigitValue(c: char): (d: nat)
    requires IsDigit(c)
    ensures d < 10
  {
    (c - '0') as int
  }

  function DigitsValue(s: string): nat
    requires forall i | 0 <= i < |s| :: IsDigit(s[i])
  {
    if s == "" then 0 else 10 * DigitsValue(s[..|s| - 1]) + DigitValue(s[|s| - 1])
  }

  /** Unsigned 32-bit parsing: one optional leading '+', then digits, no overflow. */
  function ParseU32(s: string): Option<nat> {
    var digits := if |s| > 1 && s[0] == '+' then s[1..] else s;
    if digits == "" || exists i | 0 <= i < |digits| :: !IsDigit(digits[i]) then None
    else if DigitsValue(digits) >= U32_LIMIT then None
    else Some(DigitsValue(digits))
  }

  // ---- Splitting and joining ------------------------------------------------------

  function Split(s: string, sep: char): (parts: seq<string>)
    ensures |parts| >= 1
  {
    if s == "" then [""]
    else
      var rest := Split(s[1..], sep);
      if s[0] == sep then [""] + rest else [[s[0]] + rest[0]] + rest[1..]
  }

  function Join(parts: seq<string>, sep: char): string {
    if |parts| == 0 then ""
    else if |parts| == 1 then parts[0]
    else parts[0] + [sep] + Join(parts[1..], sep)
  }

  // ---- Subject --------------------------------------------------------------------

  function New(group: string, event: string, version: nat): Result<Subject, SubjectError> {
    match ValidateToken(group)
    case Failure(e) => Failure(e)
    case Success(_) =>
      match ValidateToken(event)
      case Failure(e) => Failure(e)
      case Success(_) =>
        if version == 0 then Failure(ZeroVersion) else Success(Subject(group, event, version))
  }

  function AsString(s: Subject): string {
    ROOT + "." + s.group + "." + s.event + ".v" + Decimal(s.version)
  }

  function GroupWildcard(group: string, version: nat): Result<string, SubjectError> {
    match ValidateToken(group)
    case Failure(e) => Failure(e)
    case Success(_) =>
      if version == 0 then Failure(ZeroVersion)
      else Success(ROOT + "." + group + ".*.v" + Decimal(version))
  }

  function Parse(subject: string): Result<Subject, SubjectError> {
    var parts := Split(subject, '.');
    if |parts| != 4 || parts[0] != ROOT || |parts[3]| == 0 || parts[3][0] != 'v' then Failure(Malformed(subject))
    else match ParseU32(parts[3][1..])
      case None => Failure(Malformed(subject))
      case Some(version) =>
        if parts[3] != "v" + Decimal(version) then Failure(Malformed(subject))
        else New(parts[1], parts[2], version)
  }

  /** What `New` accepts, said without the parser: both tokens pass and the version is a
      positive 32-bit number. */
  predicate Canonical(s: Subject) {
    ValidateToken(s.group).Success? && ValidateToken(s.event).Success? && 1 <= s.version < U32_LIMIT
  }

  // ---- NATS matching --------------------------------------------------------------

  /** Token-wise matching with `*` standing for exactly one token. */
  predicate Matches(pattern: string, subject: string) {
    var p, s := Split(pattern, '.'), Split(subject, '.');
    |p| == |s| && forall i | 0 <= i < |p| :: p[i] == "*" || p[i] == s[i]
  }

  // ---- The compat guard (src/transactional.rs) ------------------------------------

  predicate IsWhitespace(c: char) {
    || '\t' <= c <= '\r' || c == ' ' || c == '\U{85}' || c == '\U{A0}' || c == '\U{1680}'
    || '\U{2000}' <= c <= '\U{200A}' || c == '\U{2028}' || c == '\U{2029}' || c == '\U{202F}'
    || c == '\U{205F}' || c == '\U{3000}'
  }

  predicate IsControl(c: char) { c <= '\U{1F}' || '\U{7F}' <= c <= '\U{9F}' }

  predicate IsBlank(s: string) { forall i | 0 <= i < |s| :: IsWhitespace(s[i]) }

  predicate IsPublishableSubject(subject: string) {
    && !IsBlank(subject)
    && (forall i | 0 <= i < |subject| ::
         !IsWhitespace(subject[i]) && !IsControl(subject[i]) && subject[i] != '*' && subject[i] != '>')
    && (var tokens := Split(subject, '.');
        forall i | 0 <= i < |tokens| :: tokens[i] != "" && !IsUuidText(tokens[i]))
  }

  // ---- Lemmas: decimal ------------------------------------------------------------

  lemma {:induction false} DecimalValue(n: nat)
    ensures DigitsValue(Decimal(n)) == n
  {
    if n >= 10 {
      DecimalValue(n / 10);
      assert Decimal(n)[..|Decimal(n)| - 1] == Decimal(n / 10);
    }
  }

  lemma {:induction false} DecimalParses(n: nat)
    requires n < U32_LIMIT
    ensures ParseU32(Decimal(n)) == Some(n)
  {
    DecimalValue(n);
    assert IsDigit(Decimal(n)[0]);
  }

  // ---- Lemmas: split and join -----------------------------------------------------

  predicate Free(s: string, sep: char) { forall i | 0 <= i < |s| :: s[i] != sep }

  lemma {:induction false} JoinSplit(s: string, sep: char)
    ensures Join(Split(s, sep), sep) == s
    ensures forall i | 0 <= i < |Split(s, sep)| :: Free(Split(s, sep)[i], sep)
  {
    if s != "" {
      JoinSplit(s[1..], sep);
      var rest := Split(s[1..], sep);
      var parts := Split(s, sep);
      if s[0] == sep {
        assert parts[1..] == rest;
      } else if |rest| > 1 {
        assert parts[1..] == rest[1..];
      }
      assert s == [s[0]] + s[1..];
    }
  }

  lemma {:induction false} SplitFree(s: string, sep: char)
    requires Free(s, sep)
    ensures Split(s, sep) == [s]
  {
    if s != "" {
      assert Free(s[1..], sep);
      SplitFree(s[1..], sep);
      assert s == [s[0]] + s[1..];
    }
  }

  lemma {:induction false} SplitFirst(head: string, tail: string, sep: char)
    requires Free(head, sep)
    ensures Split(head + [sep] + tail, sep) == [head] + Split(tail, sep)
  {
    var s := head + [sep] + tail;
    if head == "" {
      assert s[1..] == tail;
    } else {
      assert Free(head[1..], sep);
      SplitFirst(head[1..], tail, sep);
      assert s[1..] == head[1..] + [sep] + tail;
      assert head == [head[0]] + head[1..];
    }
  }

  lemma {:induction false} SplitJoin(parts: seq<string>, sep: char)
    requires |parts| >= 1 && forall i | 0 <= i < |parts| :: Free(parts[i], sep)
    ensures Split(Join(parts, sep), sep) == parts
  {
    if |parts| == 1 {
      SplitFree(parts[0], sep);
    } else {
      SplitJoin(parts[1..], sep);
      SplitFirst(parts[0], Join(parts[1..], sep), sep);
      assert parts == [parts[0]] + parts[1..];
    }
  }

  // ---- Lemmas: subjects -----------------------------------------------------------

  lemma {:induction false} TokenIsDotFree(token: string)
    requires ValidateToken(token).Success?
    ensures Free(token, '.')
  {
    forall i | 0 <= i < |token|
      ensures token[i] != '.'
    {
      assert IsTokenChar(token[i]);
    }
  }

  lemma {:induction false} JoinFour(a: string, b: string, c: string, d: string)
    ensures Join([a, b, c, d], '.') == a + "." + b + "." + c + "." + d
  {
    var all := [a, b, c, d];
    assert all[1..] == [b, c, d] && all[1..][1..] == [c, d] && all[1..][1..][1..] == [d];
    assert Join([c, d], '.') == c + "." + d;
    assert Join([b, c, d], '.') == b + "." + (c + "." + d);
    assert a + "." + (b + "." + (c + "." + d)) == a + "." + b + "." + c + "." + d;
  }

  /** The four tokens of a rendered subject, and of a rendered group wildcard. */
  lemma {:induction false} SplitRendered(group: string, event: string, version: nat)
    requires Free(group, '.') && Free(event, '.')
    ensures Split(ROOT + "." + group + "." + event + ".v" + Decimal(version), '.')
         == [ROOT, group, event, "v" + Decimal(version)]
  {
    var last := "v" + Decimal(version);
    forall i | 0 <= i < |last| ensures last[i] != '.' {
      assert i > 0 ==> last[i] == Decimal(version)[i - 1];
    }
    var parts := [ROOT, group, event, last];
    SplitJoin(parts, '.');
    JoinFour(ROOT, group, event, last);
    assert ROOT + "." + group + "." + event + ".v" + Decimal(version)
        == ROOT + "." + group + "." + event + "." + last;
  }

  /** Parsing and printing undo each other: a text parses to a subject exactly when the
      subject is canonical and renders to that very text. */
  lemma {:induction false} ParsePrint(text: string, s: Subject)
    ensures Parse(text) == Success(s) <==> Canonical(s) && text == AsString(s)
  {
    if Canonical(s) && text == AsString(s) {
      TokenIsDotFree(s.group);
      TokenIsDotFree(s.event);
      SplitRendered(s.group, s.event, s.version);
      DecimalParses(s.version);
      assert ("v" + Decimal(s.version))[1..] == Decimal(s.version);
    }
    if Parse(text) == Success(s) {
      JoinSplit(text, '.');
      var parts := Split(text, '.');
      assert parts == [parts[0], parts[1], parts[2], parts[3]];
      JoinFour(parts[0], parts[1], parts[2], parts[3]);
      assert text == ROOT + "." + s.group + "." + s.event + "." + ("v" + Decimal(s.version));
      assert text == AsString(s);
    }
  }

  /** A group wildcard selects exactly the subjects of its group and version. */
  lemma {:induction false} WildcardRoutes(group: string, version: nat, s: Subject)
    requires GroupWildcard(group, version).Success? && version < U32_LIMIT
    requires Canonical(s)
    ensures Matches(GroupWildcard(group, version).value, AsString(s)) <==> s.group == group && s.version == version
  {
    TokenIsDotFree(s.group);
    TokenIsDotFree(s.event);
    TokenIsDotFree(group);
    SplitRendered(s.group, s.event, s.version);
    SplitRendered(group, "*", version);
    var pattern := GroupWildcard(group, version).value;
    assert pattern == ROOT + "." + group + "." + "*" + ".v" + Decimal(version);
    var p, q := Split(pattern, '.'), Split(AsString(s), '.');
    assert p[1] == group && p[3] == "v" + Decimal(version);
    assert q[1] == s.group && q[3] == "v" + Decimal(s.version);
    assert group != "*" by { assert !IsTokenChar('*'); }
    assert p[3] != "*" && p[0] == q[0];
    if p[3] == q[3] {
      assert p[3][1..] == Decimal(version) && q[3][1..] == Decimal(s.version);
      DecimalValue(version);
      DecimalValue(s.version);
    }
  }

  /** Nothing canonical is lost by the looser guard of the compatibility service. */
  lemma {:induction false} CanonicalPassesCompatGuard(text: string)
    requires Parse(text).Success?
    ensures IsPublishableSubject(text)
  {
    var s := Parse(text).value;
    ParsePrint(text, s);
    TokenIsDotFree(s.group);
    TokenIsDotFree(s.event);
    SplitRendered(s.group, s.event, s.version);
    var d := Decimal(s.version);
    var tokens := Split(text, '.');
    assert tokens == [ROOT, s.group, s.event, "v" + d];
    forall i | 0 <= i < |text|
      ensures IsTokenChar(text[i]) || text[i] == '.'
    {
      RenderedChars(s, i);
    }
    assert text[0] == 'f';
    DecimalLength(s.version);
  }

  lemma {:induction false} RenderedChars(s: Subject, i: nat)
    requires Canonical(s) && i < |AsString(s)|
    ensures IsTokenChar(AsString(s)[i]) || AsString(s)[i] == '.'
  {
    var head := ROOT + ".";
    var withGroup := head + s.group;
    var withEvent := withGroup + "." + s.event;
    assert AsString(s) == withEvent + ".v" + Decimal(s.version);
    if i < |head| {
      assert head == "fiducia.";
      assert AsString(s)[i] == head[i];
    } else if i < |withGroup| {
      assert AsString(s)[i] == s.group[i - |head|];
    } else if |withGroup| < i < |withEvent| {
      assert AsString(s)[i] == s.event[i - |withGroup| - 1];
    } else if i > |withEvent| + 1 {
      assert AsString(s)[i] == Decimal(s.version)[i - |withEvent| - 2];
    }
  }

  lemma {:induction false} DecimalLength(n: nat)
    requires n < U32_LIMIT
    ensures |Decimal(n)| <= 10
  {
    DecimalShorterThan(n, 10);
  }

  function Pow10(k: nat): nat { if k == 0 then 1 else 10 * Pow10(k - 1) }

  lemma {:induction false} DecimalShorterThan(n: nat, k: nat)
    requires n < Pow10(k) && k >= 1
    ensures |Decimal(n)| <= k
  {
    if n >= 10 {
      assert k > 1 by { assert Pow10(1) == 10 * Pow10(0); }
      DecimalShorterThan(n / 10, k - 1);
    }
  }
}
