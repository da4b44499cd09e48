/** Which texts the two subject guards let through, said in characters and tokens alone. */
module SubjectTokens {
  import opened Wrappers
  import opened Subjects
  import opened DedupId
  import Outbox

  predicate Plain(c: char) { 'a' <= c <= 'z' || '0' <= c <= '9' || c == '-' }

  /** Lower-case letters, digits and inner hyphens, and not as long as a UUID is written. */
  predicate PlainToken(t: string) {
    && t != "" && |t| != 32 && |t| != 36
    && (forall i | 0 <= i < |t| :: Plain(t[i]))
    && t[0] != '-' && t[|t| - 1] != '-'
  }

  lemma {:induction false} PlainTokenPasses(t: string)
    requires PlainToken(t)
    ensures ValidateToken(t).Success?
  {
    if |t| == 38 { assert Plain(t[0]); }
    if |t| == 45 {
      assert Plain(t[3]);
      assert t[..9][3] == t[3];
    }
    assert forall i | 0 <= i < |t| :: IsTokenChar(t[i]) by {
      forall i | 0 <= i < |t| ensures IsTokenChar(t[i]) {
        assert Plain(t[i]);
      }
    }
  }

  /** Plain tokens and a positive 32-bit version make a subject, written as documented. */
  lemma {:induction false} PlainSubjectParses(group: string, event: string, version: nat)
    requires PlainToken(group) && PlainToken(event) && 1 <= version < 0x1_0000_0000
    ensures Parse("fiducia." + group + "." + event + ".v" + Decimal(version)) == Success(Subject(group, event, version))
    ensures New(group, event, version) == Success(Subject(group, event, version))
    ensures AsString(Subject(group, event, version)) == "fiducia." + group + "." + event + ".v" + Decimal(version)
  {
    PlainTokenPasses(group);
    PlainTokenPasses(event);
    var s := Subject(group, event, version);
    assert AsString(s) == "fiducia." + group + "." + event + ".v" + Decimal(version);
    ParsePrint(AsString(s), s);
  }

  lemma {:induction false} FirstVersionParses(group: string, event: string)
    requires PlainToken(group) && PlainToken(event)
    ensures Parse("fiducia." + group + "." + event + ".v1") == Success(Subject(group, event, 1))
  {
    PlainSubjectParses(group, event, 1);
    assert Decimal(1) == "1";
    assert ".v" + Decimal(1) == ".v1";
    assert "fiducia." + group + "." + event + ".v" + "1" == "fiducia." + group + "." + event + ".v1";
  }

  lemma {:induction false} WorkItemsCreated()
    ensures Parse("fiducia.work-items.created.v1") == Success(Subject("work-items", "created", 1))
  {
    hide Parse;
    FirstVersionParses("work-items", "created");
    assert "fiducia." + "work-items" + "." + "created" + ".v1" == "fiducia.work-items.created.v1";
  }

  lemma {:induction false} ExecutionsRequested()
    ensures Parse("fiducia.executions.requested.v1") == Success(Subject("executions", "requested", 1))
  {
    hide Parse;
    FirstVersionParses("executions", "requested");
    assert "fiducia." + "executions" + "." + "requested" + ".v1" == "fiducia.executions.requested.v1";
  }

  lemma {:induction false} ExecutionsProgress()
    ensures Parse("fiducia.executions.progress.v1") == Success(Subject("executions", "progress", 1))
  {
    hide Parse;
    FirstVersionParses("executions", "progress");
    assert "fiducia." + "executions" + "." + "progress" + ".v1" == "fiducia.executions.progress.v1";
  }

  lemma {:induction false} ExecutionsCompleted()
    ensures Parse("fiducia.executions.completed.v1") == Success(Subject("executions", "completed", 1))
  {
    hide Parse;
    FirstVersionParses("executions", "completed");
    assert "fiducia." + "executions" + "." + "completed" + ".v1" == "fiducia.executions.completed.v1";
  }

  lemma {:induction false} ReviewsRequested()
    ensures Parse("fiducia.reviews.requested.v1") == Success(Subject("reviews", "requested", 1))
  {
    hide Parse;
    FirstVersionParses("reviews", "requested");
    assert "fiducia." + "reviews" + "." + "requested" + ".v1" == "fiducia.reviews.requested.v1";
  }

  lemma {:induction false} ReviewsFindings()
    ensures Parse("fiducia.reviews.findings.v1") == Success(Subject("reviews", "findings", 1))
  {
    hide Parse;
    FirstVersionParses("reviews", "findings");
    assert "fiducia." + "reviews" + "." + "findings" + ".v1" == "fiducia.reviews.findings.v1";
  }

  lemma {:induction false} TestsRequested()
    ensures Parse("fiducia.tests.requested.v1") == Success(Subject("tests", "requested", 1))
  {
    hide Parse;
    FirstVersionParses("tests", "requested");
    assert "fiducia." + "tests" + "." + "requested" + ".v1" == "fiducia.tests.requested.v1";
  }

  lemma {:induction false} TestsCompleted()
    ensures Parse("fiducia.tests.completed.v1") == Success(Subject("tests", "completed", 1))
  {
    hide Parse;
    FirstVersionParses("tests", "completed");
    assert "fiducia." + "tests" + "." + "completed" + ".v1" == "fiducia.tests.completed.v1";
  }

  lemma {:induction false} RunnersHeartbeat()
    ensures Parse("fiducia.runners.heartbeat.v1") == Success(Subject("runners", "heartbeat", 1))
  {
    hide Parse;
    FirstVersionParses("runners", "heartbeat");
    assert "fiducia." + "runners" + "." + "heartbeat" + ".v1" == "fiducia.runners.heartbeat.v1";
  }

  lemma {:induction false} RunnersCommands()
    ensures Parse("fiducia.runners.commands.v1") == Success(Subject("runners", "commands", 1))
  {
    hide Parse;
    FirstVersionParses("runners", "commands");
    assert "fiducia." + "runners" + "." + "commands" + ".v1" == "fiducia.runners.commands.v1";
  }

  lemma {:induction false} GithubEvents()
    ensures Parse("fiducia.github.events.v1") == Success(Subject("github", "events", 1))
  {
    hide Parse;
    FirstVersionParses("github", "events");
    assert "fiducia." + "github" + "." + "events" + ".v1" == "fiducia.github.events.v1";
  }

  lemma {:induction false} JiraEvents()
    ensures Parse("fiducia.jira.events.v1") == Success(Subject("jira", "events", 1))
  {
    hide Parse;
    FirstVersionParses("jira", "events");
    assert "fiducia." + "jira" + "." + "events" + ".v1" == "fiducia.jira.events.v1";
  }

  /** Every subject the repository itself defines is one. */
  lemma {:induction false} CanonicalSetParses()
    ensures Parse("fiducia.work-items.created.v1") == Success(Subject("work-items", "created", 1))
    ensures Parse("fiducia.executions.requested.v1") == Success(Subject("executions", "requested", 1))
    ensures Parse("fiducia.executions.progress.v1") == Success(Subject("executions", "progress", 1))
    ensures Parse("fiducia.executions.completed.v1") == Success(Subject("executions", "completed", 1))
    ensures Parse("fiducia.reviews.requested.v1") == Success(Subject("reviews", "requested", 1))
    ensures Parse("fiducia.reviews.findings.v1") == Success(Subject("reviews", "findings", 1))
    ensures Parse("fiducia.tests.requested.v1") == Success(Subject("tests", "requested", 1))
    ensures Parse("fiducia.tests.completed.v1") == Success(Subject("tests", "completed", 1))
    ensures Parse("fiducia.runners.heartbeat.v1") == Success(Subject("runners", "heartbeat", 1))
    ensures Parse("fiducia.runners.commands.v1") == Success(Subject("runners", "commands", 1))
    ensures Parse("fiducia.github.events.v1") == Success(Subject("github", "events", 1))
    ensures Parse("fiducia.jira.events.v1") == Success(Subject("jira", "events", 1))
  {
    hide *;
    WorkItemsCreated();
    ExecutionsRequested();
    ExecutionsProgress();
    ExecutionsCompleted();
    ReviewsRequested();
    ReviewsFindings();
    TestsRequested();
    TestsCompleted();
    RunnersHeartbeat();
    RunnersCommands();
    GithubEvents();
    JiraEvents();
  }

  /** The four tokens of a parsed subject. */
  lemma {:induction false} ParsedTokens(text: string)
    requires Parse(text).Success?
    ensures var s := Parse(text).value;
            && Split(text, '.') == ["fiducia", s.group, s.event, "v" + Decimal(s.version)]
            && text == "fiducia." + s.group + "." + s.event + ".v" + Decimal(s.version)
            && ValidateToken(s.group).Success? && ValidateToken(s.event).Success? && 1 <= s.version < 0x1_0000_0000
  {
    var s := Parse(text).value;
    ParsePrint(text, s);
    TokenIsDotFree(s.group);
    TokenIsDotFree(s.event);
    SplitRendered(s.group, s.event, s.version);
    assert text == "fiducia." + s.group + "." + s.event + ".v" + Decimal(s.version);
  }

  predicate Clean(t: string) {
    t != "" && (forall i | 0 <= i < |t| :: Plain(t[i])) && t[0] != '-' && t[|t| - 1] != '-'
  }

  lemma {:induction false} PassedIsClean(t: string)
    requires ValidateToken(t).Success?
    ensures Clean(t)
  {
    forall i | 0 <= i < |t| ensures Plain(t[i]) {
      assert IsTokenChar(t[i]);
    }
  }

  /** Nothing else is let through: a parsed subject has four tokens of lower-case letters, digits
      and inner hyphens; no wildcard, blank, upper-case letter or injected token. */
  lemma {:induction false} ParsedIsClean(text: string)
    requires Parse(text).Success?
    ensures |Split(text, '.')| == 4 && forall i | 0 <= i < 4 :: Clean(Split(text, '.')[i])
    ensures forall i | 0 <= i < |text| :: Plain(text[i]) || text[i] == '.'
  {
    ParsedTokens(text);
    var s := Parse(text).value;
    PassedIsClean(s.group);
    PassedIsClean(s.event);
    var d := Decimal(s.version);
    var last := "v" + d;
    forall i | 0 <= i < |last| ensures Plain(last[i]) {
      if i > 0 { assert last[i] == d[i - 1] && IsDigit(d[i - 1]); }
    }
    assert last[|last| - 1] == d[|d| - 1] && IsDigit(d[|d| - 1]);
    assert Clean("fiducia") && Clean(last);
    CleanParts(s.group, s.event, last);
    assert text == "fiducia." + s.group + "." + s.event + "." + last;
  }

  lemma {:induction false} CleanParts(a: string, b: string, c: string)
    requires Clean(a) && Clean(b) && Clean(c)
    ensures var text := "fiducia." + a + "." + b + "." + c;
            forall i | 0 <= i < |text| :: Plain(text[i]) || text[i] == '.'
  {
    var text := "fiducia." + a + "." + b + "." + c;
    forall i | 0 <= i < |text| ensures Plain(text[i]) || text[i] == '.' {
      if 8 <= i < 8 + |a| {
        assert text[i] == a[i - 8];
      } else if 9 + |a| <= i < 9 + |a| + |b| {
        assert text[i] == b[i - 9 - |a|];
      } else if 10 + |a| + |b| <= i {
        assert text[i] == c[i - 10 - |a| - |b|];
      }
    }
  }

  /** A plain subject may be published, on either path, with exactly up to 1 MiB of payload. */
  lemma {:induction false} PayloadLimit(group: string, event: string, version: nat, n: nat)
    requires PlainToken(group) && PlainToken(event) && 1 <= version < 0x1_0000_0000
    ensures var text := "fiducia." + group + "." + event + ".v" + Decimal(version);
            && (Outbox.ValidateForPublish(text, n).Success? <==> n <= 1_048_576)
            && (Outbox.ValidateCompatPublish(text, n).Success? <==> n <= 1_048_576)
  {
    hide Parse, IsPublishableSubject;
    PlainSubjectParses(group, event, version);
    CanonicalPassesCompatGuard("fiducia." + group + "." + event + ".v" + Decimal(version));
  }

  // ---- Identifiers --------------------------------------------------------------------

  /** A UUID as 32 digits, and hyphenated as in section 4 of RFC 9562. */
  function Digits(u: Uuid): (s: string)
    ensures |s| == 32
  {
    Hex(BigEndian(u, 16))
  }

  function Hyphenated(u: Uuid): string {
    var h := Digits(u);
    h[..8] + "-" + h[8..12] + "-" + h[12..16] + "-" + h[16..20] + "-" + h[20..]
  }

  lemma {:induction false} DigitsAreHex(u: Uuid)
    ensures forall i | 0 <= i < 32 :: IsHexDigit(Digits(u)[i])
  {
    HexIsLower(BigEndian(u, 16));
    forall i | 0 <= i < 32 ensures IsHexDigit(Digits(u)[i]) {
      assert IsLowerHex(Hex(BigEndian(u, 16))[i]);
    }
  }

  lemma {:induction false} IdentifiersAreUuids(u: Uuid)
    ensures IsUuidText(Digits(u)) && IsUuidText(Hyphenated(u)) && |Hyphenated(u)| == 36
  {
    hide Digits;
    DigitsAreHex(u);
    var h, t := Digits(u), Hyphenated(u);
    forall i | 0 <= i < 36 ensures if i in {8, 13, 18, 23} then t[i] == '-' else IsHexDigit(t[i]) {
      if i < 8 {
        assert t[i] == h[i];
      } else if 8 < i < 13 {
        assert t[i] == h[i - 1];
      } else if 13 < i < 18 {
        assert t[i] == h[i - 2];
      } else if 18 < i < 23 {
        assert t[i] == h[i - 3];
      } else if 23 < i {
        assert t[i] == h[i - 4];
      }
    }
  }

  /** No identifier is part of a subject. */
  lemma {:induction false} NoIdentifierInSubject(text: string, u: Uuid)
    requires Parse(text).Success?
    ensures Digits(u) !in Split(text, '.') && Hyphenated(u) !in Split(text, '.')
  {
    hide Digits, Hyphenated, Parse;
    ParsedTokens(text);
    IdentifiersAreUuids(u);
    var s := Parse(text).value;
    var last := "v" + Decimal(s.version);
    assert last[0] == 'v' && !IsHexDigit('v');
    assert !IsUuidText(last) by { VersionIsNoUuid(Decimal(s.version)); }
    assert !IsUuidText("fiducia") && !IsUuidText(s.group) && !IsUuidText(s.event);
  }

  lemma {:induction false} VersionIsNoUuid(d: string)
    ensures !IsUuidText("v" + d)
  {
    var last := "v" + d;
    assert last[0] == 'v' && !IsHexDigit('v');
    if |last| == 45 { assert last[..9][0] == 'v'; }
  }

  // ---- The compat guard -----------------------------------------------------------------

  /** Printable ASCII without the NATS wildcards. */
  predicate Visible(c: char) { '!' <= c <= '~' && c != '*' && c != '>' }

  /** The looser guard keeps the historical names: any dot-separated tokens of visible characters,
      upper case and underscores included, none of them as long as a UUID is written. */
  lemma {:induction false} HistoricalNamesPass(subject: string)
    requires forall i | 0 <= i < |subject| :: Visible(subject[i])
    requires forall i | 0 <= i < |Split(subject, '.')| ::
               var n := |Split(subject, '.')[i]|; n != 0 && n != 32 && n != 36 && n != 38 && n != 45
    ensures IsPublishableSubject(subject)
  {
    var tokens := Split(subject, '.');
    assert tokens[0] != "";
    if subject != "" { assert Visible(subject[0]); }
  }

  /** And it lets no white space, control character, wildcard, empty token or identifier through. */
  lemma {:induction false} CompatGuardRefuses(subject: string, u: Uuid)
    requires IsPublishableSubject(subject)
    ensures subject != ""
    ensures forall i | 0 <= i < |subject| ::
              ' ' < subject[i] && subject[i] != '\U{7F}' && subject[i] != '*' && subject[i] != '>'
    ensures "" !in Split(subject, '.') && Digits(u) !in Split(subject, '.') && Hyphenated(u) !in Split(subject, '.')
  {
    hide Digits, Hyphenated, IsUuidText;
    IdentifiersAreUuids(u);
    assert forall i | 0 <= i < |subject| :: !IsWhitespace(subject[i]) && !IsControl(subject[i]);
  }
}
