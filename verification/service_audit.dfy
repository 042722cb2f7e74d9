/**
 * The central audit logger: who is calling (from the token's claims), and one
 * structured, marker-prefixed log line per audited action.
 */
module ServiceAudit {
  import opened Wrappers
  import opened JavaText
  import opened Claims
  import opened AuditEvent
  import opened Mdc
  import opened Uuid
  import opened CorrelationFilter

  const UNKNOWN_SERVICE := "unknown-service"

  // ---------------------------------------------------------------------------
  // Calling-service extraction
  // ---------------------------------------------------------------------------

  /**
   * extractCallingService: the appid claim (v1 tokens) when it is non-blank,
   * else the azp claim (v2 tokens) when it is non-blank, else the sentinel.
   * The result always names a claim value or the sentinel and is never blank.
   */
  function ExtractCallingService(jwt: Jwt): (r: string)
    ensures !IsBlank(r)
    ensures Some(r) == jwt.appid || Some(r) == jwt.azp || r == UNKNOWN_SERVICE
  {
    if !NullOrBlank(jwt.appid) then jwt.appid.value
    else if !NullOrBlank(jwt.azp) then jwt.azp.value
    else
      assert !IsWhitespace(UNKNOWN_SERVICE[0]);
      UNKNOWN_SERVICE
  }

  /** Reference definition: the first usable candidate in order, else the fallback. */
  function FirstNonBlank(candidates: seq<Option<string>>, fallback: string): string {
    if |candidates| == 0 then fallback
    else if !NullOrBlank(candidates[0]) then candidates[0].value
    else FirstNonBlank(candidates[1..], fallback)
  }

  /** The precedence rule: appid before azp before the sentinel, whatever the lower-ranked claims hold. */
  lemma ExtractCallingServicePrecedence(jwt: Jwt)
    ensures ExtractCallingService(jwt) == FirstNonBlank([jwt.appid, jwt.azp], UNKNOWN_SERVICE)
    ensures !NullOrBlank(jwt.appid) ==> ExtractCallingService(jwt) == jwt.appid.value
    ensures NullOrBlank(jwt.appid) && !NullOrBlank(jwt.azp) ==> ExtractCallingService(jwt) == jwt.azp.value
    ensures NullOrBlank(jwt.appid) && NullOrBlank(jwt.azp) ==> ExtractCallingService(jwt) == UNKNOWN_SERVICE
  {
    var cs := [jwt.appid, jwt.azp];
    assert cs[1..] == [jwt.azp] && cs[1..][1..] == [];
    assert FirstNonBlank(cs[1..], UNKNOWN_SERVICE)
        == if !NullOrBlank(jwt.azp) then jwt.azp.value else FirstNonBlank([], UNKNOWN_SERVICE);
  }

  /** Three concrete claim sets: both claims, azp only, neither. */
  lemma ExtractCallingServiceExamples(aud: Option<seq<string>>, roles: ClaimValue)
    ensures ExtractCallingService(Jwt(Some("svc-a"), Some("svc-b"), aud, roles)) == "svc-a"
    ensures ExtractCallingService(Jwt(None, Some("svc-b"), aud, roles)) == "svc-b"
    ensures ExtractCallingService(Jwt(Some(" "), None, aud, roles)) == UNKNOWN_SERVICE
  {
    assert !IsWhitespace("svc-a"[0]) && !IsWhitespace("svc-b"[0]);
  }

  // ---------------------------------------------------------------------------
  // The audit log line
  // ---------------------------------------------------------------------------

  const AUDIT_MARKER := "SERVICE_AUDIT"

  /** The keys of the audit line, in the order downstream log processors expect them. */
  const AUDIT_KEYS: seq<string> := ["service", "action", "resourceId", "endpoint", "correlationId", "timestamp"]

  /** The text that opens every audit line. */
  const LINE_OPEN := AUDIT_MARKER + " {"

  /** The message template passed to log.info, cut at its six `{}` placeholders. */
  const TEMPLATE_PIECES: seq<string> := [
    "SERVICE_AUDIT {\"service\":\"",
    "\",\"action\":\"",
    "\",\"resourceId\":\"",
    "\",\"endpoint\":\"",
    "\",\"correlationId\":\"",
    "\",\"timestamp\":\"",
    "\"}"]

  /** The combined length of a list of strings. */
  function TotalLength(ss: seq<string>): nat
    decreases |ss|
  {
    if |ss| == 0 then 0 else |ss[0]| + TotalLength(ss[1..])
  }

  /** Placeholder substitution: the pieces with the values between them, in order. */
  function Substitute(pieces: seq<string>, values: seq<string>): string
    requires |pieces| == |values| + 1
    decreases |values|
  {
    if |values| == 0 then pieces[0] else pieces[0] + values[0] + Substitute(pieces[1..], values[1..])
  }

  /**
   * A substituted message opens with the first piece, closes with the last,
   * and holds every character of every piece and value exactly once: nothing
   * is escaped, dropped or added.
   */
  lemma {:induction false} SubstituteFrames(pieces: seq<string>, values: seq<string>)
    requires |pieces| == |values| + 1
    ensures var r := Substitute(pieces, values);
      && pieces[0] <= r
      && |r| == TotalLength(pieces) + TotalLength(values)
      && |pieces[|values|]| <= |r| && r[|r| - |pieces[|values|]|..] == pieces[|values|]
    decreases |values|
  {
    if |values| > 0 {
      var rest := Substitute(pieces[1..], values[1..]);
      SubstituteFrames(pieces[1..], values[1..]);
      var r := pieces[0] + values[0] + rest;
      assert pieces[1..][|values[1..]|] == pieces[|values|];
      assert r[|r| - |rest|..] == rest;
    }
  }

  /** The event field a key of the audit line names, as text; None for a key the line does not have. */
  function FieldText(e: ServiceAuditEvent, key: string, render: Instant -> string): Option<string> {
    if key == "service" then Some(e.callingService)
    else if key == "action" then Some(e.action)
    else if key == "resourceId" then Some(NullText(e.resourceId))
    else if key == "endpoint" then Some(NullText(e.endpoint))
    else if key == "correlationId" then Some(NullText(e.correlationId))
    else if key == "timestamp" then Some(render(e.timestamp))
    else None
  }

  /**
   * The six values of an event as the logger writes them, in key order: a null
   * component prints as "null", the timestamp through its text form `render`.
   * Every value stands under the key that names its field.
   */
  function AuditValues(e: ServiceAuditEvent, render: Instant -> string): (v: seq<string>)
    ensures |v| == |AUDIT_KEYS|
    ensures forall i :: 0 <= i < |AUDIT_KEYS| ==> Some(v[i]) == FieldText(e, AUDIT_KEYS[i], render)
  {
    var k := AUDIT_KEYS;
    assert k[1] != k[0] by { assert |k[1]| != |k[0]|; }
    assert k[2] != k[0] && k[2] != k[1] by { assert |k[2]| != |k[0]| && |k[2]| != |k[1]|; }
    assert k[3] != k[0] && k[3] != k[1] && k[3] != k[2] by { assert k[3][0] == 'e'; }
    assert k[4] != k[0] && k[4] != k[1] && k[4] != k[2] && k[4] != k[3] by { assert k[4][0] == 'c'; }
    assert k[5] != k[0] && k[5] != k[1] && k[5] != k[2] && k[5] != k[3] && k[5] != k[4] by { assert k[5][0] == 't'; }
    [e.callingService, e.action, NullText(e.resourceId), NullText(e.endpoint), NullText(e.correlationId), render(e.timestamp)]
  }

  /**
   * The line log.info writes for an event: each value spliced in verbatim,
   * with no escaping. It opens with the marker and the first key and closes
   * the last member, and its length is the template's plus the values'.
   */
  function AuditLine(e: ServiceAuditEvent, render: Instant -> string): (line: string)
    ensures TEMPLATE_PIECES[0] <= line
    ensures |line| >= 2 && line[|line| - 2..] == "\"}"
    ensures |line| == TotalLength(TEMPLATE_PIECES) + TotalLength(AuditValues(e, render))
  {
    var values := AuditValues(e, render);
    SubstituteFrames(TEMPLATE_PIECES, values);
    ClosingPieceText();
    Substitute(TEMPLATE_PIECES, values)
  }

  /** The opening of one member, up to its value. */
  function Open(key: string): string {
    "\"" + key + "\":\""
  }

  /** One `"key":"value"` member. */
  function Member(key: string, value: string): string {
    Open(key) + value + "\""
  }

  /** Members joined by commas, keys and values paired in order. */
  function Members(keys: seq<string>, values: seq<string>): string
    requires |keys| == |values|
    decreases |keys|
  {
    if |keys| == 0 then ""
    else if |keys| == 1 then Member(keys[0], values[0])
    else Member(keys[0], values[0]) + "," + Members(keys[1..], values[1..])
  }

  /** The template pieces that follow the first value: a separator before each key, then the closing. */
  function TrailingPieces(keys: seq<string>): (p: seq<string>)
    ensures |p| == |keys| + 1
    decreases |keys|
  {
    if |keys| == 0 then ["\"}"] else ["\"," + Open(keys[0])] + TrailingPieces(keys[1..])
  }

  /** Substituting into such a template gives the prefix, the members and the closing brace. */
  lemma {:induction false} SubstituteMembers(prefix: string, keys: seq<string>, values: seq<string>)
    requires |keys| == |values| > 0
    ensures Substitute([prefix + Open(keys[0])] + TrailingPieces(keys[1..]), values)
         == prefix + Members(keys, values) + "}"
    decreases |keys|
  {
    var ks, vs := keys[1..], values[1..];
    var pieces := [prefix + Open(keys[0])] + TrailingPieces(ks);
    assert pieces[0] == prefix + Open(keys[0]) && pieces[1..] == TrailingPieces(ks);
    var head := prefix + Open(keys[0]) + values[0];
    assert Substitute(pieces, values) == head + Substitute(TrailingPieces(ks), vs);
    if |keys| == 1 {
      assert Substitute(TrailingPieces(ks), vs) == "\"}";
      assert head + "\"}" == prefix + Member(keys[0], values[0]) + "}";
    } else {
      assert TrailingPieces(ks) == ["\"," + Open(ks[0])] + TrailingPieces(ks[1..]);
      SubstituteMembers("\",", ks, vs);
      var rest := Members(ks, vs);
      assert head + ("\"," + rest + "}") == prefix + (Member(keys[0], values[0]) + "," + rest) + "}";
    }
  }

  /** Piece `i` of the trailing template: the separator and opening of key `i`, or the closing. */
  lemma {:induction false} TrailingPieceAt(keys: seq<string>, i: nat)
    requires i <= |keys|
    ensures TrailingPieces(keys)[i] == if i < |keys| then "\"," + Open(keys[i]) else "\"}"
    decreases |keys|
  {
    if i > 0 {
      TrailingPieceAt(keys[1..], i - 1);
      if i < |keys| {
        assert keys[1..][i - 1] == keys[i];
      }
    }
  }

  // Each equality between a literal template piece and its key is a lemma of
  // its own, so that the solver compares one pair of string literals at a time;
  // checked together, the comparisons are needlessly expensive.

  /** The first literal template piece: the line opening and the first key. */
  lemma OpeningPieceText()
    ensures TEMPLATE_PIECES[0] == LINE_OPEN + Open(AUDIT_KEYS[0])
  {
  }

  /** The literal separator pieces, each against the key it opens. */
  lemma ActionPieceText()
    ensures TEMPLATE_PIECES[1] == "\"," + Open("action")
  {
  }

  lemma ResourceIdPieceText()
    ensures TEMPLATE_PIECES[2] == "\"," + Open("resourceId")
  {
  }

  lemma EndpointPieceText()
    ensures TEMPLATE_PIECES[3] == "\"," + Open("endpoint")
  {
  }

  lemma CorrelationIdPieceText()
    ensures TEMPLATE_PIECES[4] == "\"," + Open("correlationId")
  {
  }

  lemma TimestampPieceText()
    ensures TEMPLATE_PIECES[5] == "\"," + Open("timestamp")
  {
  }

  lemma ClosingPieceText()
    ensures TEMPLATE_PIECES[|AUDIT_KEYS|] == "\"}"
  {
  }

  /** The message template is the one for the six audit keys behind the marker. */
  lemma TemplateForAuditKeys()
    ensures TEMPLATE_PIECES == [LINE_OPEN + Open(AUDIT_KEYS[0])] + TrailingPieces(AUDIT_KEYS[1..])
  {
    var ks := AUDIT_KEYS[1..];
    var pieces := [LINE_OPEN + Open(AUDIT_KEYS[0])] + TrailingPieces(ks);
    OpeningPieceText();
    ActionPieceText();
    ResourceIdPieceText();
    EndpointPieceText();
    CorrelationIdPieceText();
    TimestampPieceText();
    forall i | 1 <= i < |pieces| ensures pieces[i] == TEMPLATE_PIECES[i] {
      TrailingPieceAt(ks, i - 1);
      if i < 6 {
        assert ks[i - 1] == AUDIT_KEYS[i];
      }
    }
  }

  /** The audit line is the marker, then every key with its value in the fixed order. */
  lemma AuditLineLayout(e: ServiceAuditEvent, render: Instant -> string)
    ensures AuditLine(e, render) == LINE_OPEN + Members(AUDIT_KEYS, AuditValues(e, render)) + "}"
  {
    TemplateForAuditKeys();
    SubstituteMembers(LINE_OPEN, AUDIT_KEYS, AuditValues(e, render));
  }

  /** Every audit line starts with the marker and ends with the closing brace. */
  lemma AuditLineFraming(e: ServiceAuditEvent, render: Instant -> string)
    ensures AUDIT_MARKER <= AuditLine(e, render)
    ensures AuditLine(e, render)[|AuditLine(e, render)| - 1] == '}'
  {
    var line := AuditLine(e, render);
    OpeningPieceText();
    assert AUDIT_MARKER <= LINE_OPEN <= TEMPLATE_PIECES[0];
    assert line[|line| - 1] == line[|line| - 2..][1];
  }

  // ---------------------------------------------------------------------------
  // Reading an audit line back
  // ---------------------------------------------------------------------------

  /** The position of the first double quote in s, if any. */
  function IndexOfQuote(s: string): (r: Option<nat>)
    ensures r.Some? ==> r.value < |s| && s[r.value] == '"' && '"' !in s[..r.value]
    ensures r.None? ==> '"' !in s
  {
    if |s| == 0 then None
    else if s[0] == '"' then Some(0)
    else match IndexOfQuote(s[1..])
      case None => None
      case Some(k) =>
        assert s[..k + 1] == [s[0]] + s[1..][..k];
        Some(k + 1)
  }

  /** Reads `"key":"value"` off the front of s: the value, and what follows its closing quote. */
  function ParseMember(key: string, s: string): Option<(string, string)> {
    if !(Open(key) <= s) then None
    else
      var rest := s[|Open(key)|..];
      match IndexOfQuote(rest)
      case None => None
      case Some(q) => Some((rest[..q], rest[q + 1..]))
  }

  /**
   * A reader of the members an audit line holds: for each expected key in
   * turn, its member, then `,` before the next one or the end after the last.
   */
  function ParseMembers(keys: seq<string>, s: string): Option<seq<string>>
    decreases |keys|
  {
    if |keys| == 0 then (if s == "" then Some([]) else None)
    else match ParseMember(keys[0], s)
      case None => None
      case Some((value, after)) =>
        if |keys| == 1 then
          (if after == "" then Some([value]) else None)
        else if after != [] && after[0] == ',' then
          match ParseMembers(keys[1..], after[1..])
          case None => None
          case Some(vs) => Some([value] + vs)
        else None
  }

  /** Reads the values of the given keys back out of a line: marker, members, closing brace. */
  function ParseLine(keys: seq<string>, line: string): Option<seq<string>> {
    if |line| > |LINE_OPEN| && LINE_OPEN <= line && line[|line| - 1] == '}' then
      ParseMembers(keys, line[|LINE_OPEN|..|line| - 1])
    else None
  }

  /** Reads the six audit values back out of an audit line, or None if it is not one. */
  function ParseAuditLine(line: string): Option<seq<string>> {
    ParseLine(AUDIT_KEYS, line)
  }

  /** The first quote of `v + "\"" + t` is the one right after v, when v has none. */
  lemma {:induction false} QuoteAfterValue(v: string, t: string)
    requires '"' !in v
    ensures IndexOfQuote(v + "\"" + t) == Some(|v|)
    decreases |v|
  {
    var s := v + "\"" + t;
    if |v| > 0 {
      assert s[0] == v[0];
      assert s[1..] == v[1..] + "\"" + t;
      QuoteAfterValue(v[1..], t);
    }
  }

  /** A member whose value has no double quote reads back as that value and the text after it. */
  lemma ParseMemberOf(key: string, v: string, tail: string)
    requires '"' !in v
    ensures ParseMember(key, Open(key) + v + "\"" + tail) == Some((v, tail))
  {
    var s := Open(key) + v + "\"" + tail;
    assert s[|Open(key)|..] == v + "\"" + tail;
    QuoteAfterValue(v, tail);
    assert s[|Open(key)|..][..|v|] == v;
    assert s[|Open(key)|..][|v| + 1..] == tail;
  }

  /** No value contains a double quote, so none can end its member early. */
  predicate QuoteFree(values: seq<string>) {
    forall i :: 0 <= i < |values| ==> '"' !in values[i]
  }

  lemma QuoteFreeTail(values: seq<string>)
    requires |values| > 0 && QuoteFree(values)
    ensures QuoteFree(values[1..])
  {
    forall i | 0 <= i < |values[1..]| ensures '"' !in values[1..][i] { assert values[1..][i] == values[i + 1]; }
  }

  /** Values without double quotes are recovered exactly from the members they form. */
  lemma {:induction false} MembersRoundTrip(keys: seq<string>, values: seq<string>)
    requires |keys| == |values|
    requires QuoteFree(values)
    ensures ParseMembers(keys, Members(keys, values)) == Some(values)
    decreases |keys|
  {
    if |keys| > 0 {
      MembersStep(keys, values);
      if |keys| > 1 {
        QuoteFreeTail(values);
        MembersRoundTrip(keys[1..], values[1..]);
        assert [values[0]] + values[1..] == values;
      } else {
        assert [values[0]] == values;
      }
    }
  }

  /** Reading the members back takes off the first value, when it has no double quote, and reads on. */
  lemma MembersStep(keys: seq<string>, values: seq<string>)
    requires |keys| == |values| > 0
    requires '"' !in values[0]
    ensures |keys| == 1 ==> ParseMembers(keys, Members(keys, values)) == Some([values[0]])
    ensures |keys| > 1 && ParseMembers(keys[1..], Members(keys[1..], values[1..])) == Some(values[1..])
      ==> ParseMembers(keys, Members(keys, values)) == Some([values[0]] + values[1..])
  {
    var tail := MembersSplit(keys, values);
    ParseMemberOf(keys[0], values[0], tail);
    if |keys| > 1 && ParseMembers(keys[1..], Members(keys[1..], values[1..])) == Some(values[1..]) {
      assert tail[1..] == Members(keys[1..], values[1..]);
      ParseMembersCons(keys, Members(keys, values), values[0], tail, values[1..]);
    }
  }

  /** The first quote of `v + t` lies inside v when v holds one. */
  lemma {:induction false} QuoteInValue(v: string, t: string)
    requires '"' in v
    ensures IndexOfQuote(v + t).Some? && IndexOfQuote(v + t).value < |v|
    decreases |v|
  {
    var s := v + t;
    assert s[0] == v[0];
    if v[0] != '"' {
      var i :| 0 <= i < |v| && v[i] == '"';
      assert v[1..][i - 1] == '"';
      assert s[1..] == v[1..] + t;
      QuoteInValue(v[1..], t);
    }
  }

  /** A member whose value holds a double quote reads back as a strictly shorter value. */
  lemma ParseMemberCutsValue(key: string, v: string, tail: string)
    requires '"' in v
    ensures var p := ParseMember(key, Open(key) + v + "\"" + tail);
      p.Some? && |p.value.0| < |v|
  {
    var s := Open(key) + v + "\"" + tail;
    assert s[|Open(key)|..] == v + ("\"" + tail);
    QuoteInValue(v, "\"" + tail);
  }

  /** The members are the first member, then, if more follow, a comma and the rest. */
  lemma MembersSplit(keys: seq<string>, values: seq<string>) returns (tail: string)
    requires |keys| == |values| > 0
    ensures tail == if |keys| == 1 then "" else "," + Members(keys[1..], values[1..])
    ensures Members(keys, values) == Open(keys[0]) + values[0] + "\"" + tail
  {
    tail := if |keys| == 1 then "" else "," + Members(keys[1..], values[1..]);
  }

  /** A first member followed by a comma and readable further members reads as their values. */
  lemma ParseMembersCons(keys: seq<string>, s: string, w: string, after: string, vs: seq<string>)
    requires |keys| > 1 && ParseMember(keys[0], s) == Some((w, after))
    requires after != [] && after[0] == ',' && ParseMembers(keys[1..], after[1..]) == Some(vs)
    ensures ParseMembers(keys, s) == Some([w] + vs)
  {
  }

  /** What a successful read of the members says about the first member and the rest. */
  lemma ParseMembersHead(keys: seq<string>, s: string, w: string, after: string)
    requires |keys| > 0 && ParseMember(keys[0], s) == Some((w, after))
    ensures var p := ParseMembers(keys, s);
      p.Some? ==> (
        && |p.value| > 0 && p.value[0] == w
        && (|keys| > 1 ==> after != [] && after[0] == ',' && ParseMembers(keys[1..], after[1..]) == Some(p.value[1..])))
  {
    var p := ParseMembers(keys, s);
    if p.Some? && |keys| > 1 {
      var sub := ParseMembers(keys[1..], after[1..]);
      assert sub.Some? && p.value == [w] + sub.value;
      assert p.value[1..] == sub.value;
    }
  }

  /** Once any value holds a double quote, the members no longer read back as the values. */
  lemma {:induction false} MembersQuoteBreaksRoundTrip(keys: seq<string>, values: seq<string>)
    requires |keys| == |values|
    requires !QuoteFree(values)
    ensures ParseMembers(keys, Members(keys, values)) != Some(values)
    decreases |keys|
  {
    var v0 := values[0];
    var rest := if |keys| > 1 then Members(keys[1..], values[1..]) else "";
    var tail := if |keys| > 1 then "," + rest else "";
    var s := Members(keys, values);
    assert s == Open(keys[0]) + v0 + "\"" + tail;
    if '"' in v0 {
      ParseMemberCutsValue(keys[0], v0, tail);
      var m := ParseMember(keys[0], s).value;
      ParseMembersHead(keys, s, m.0, m.1);
    } else {
      var i :| 0 <= i < |values| && '"' in values[i];
      assert values[1..][i - 1] == values[i];
      ParseMemberOf(keys[0], v0, tail);
      ParseMembersHead(keys, s, v0, tail);
      assert tail[1..] == rest;
      MembersQuoteBreaksRoundTrip(keys[1..], values[1..]);
    }
  }

  /**
   * Reading back a line made of the marker, the members and the closing
   * brace returns the values exactly when none of them holds a double quote.
   */
  lemma LineRoundTrip(keys: seq<string>, values: seq<string>)
    requires |keys| == |values|
    ensures ParseLine(keys, LINE_OPEN + Members(keys, values) + "}") == Some(values) <==> QuoteFree(values)
  {
    var body := Members(keys, values);
    var line := LINE_OPEN + body + "}";
    assert line[|LINE_OPEN|..|line| - 1] == body;
    if QuoteFree(values) {
      MembersRoundTrip(keys, values);
    } else {
      MembersQuoteBreaksRoundTrip(keys, values);
    }
  }

  /**
   * Round trip: reading an audit line back yields exactly the event's six
   * values in key order, if and only if no value contains a double quote.
   */
  lemma AuditLineRoundTrip(e: ServiceAuditEvent, render: Instant -> string)
    ensures ParseAuditLine(AuditLine(e, render)) == Some(AuditValues(e, render)) <==> QuoteFree(AuditValues(e, render))
  {
    AuditLineLayout(e, render);
    LineRoundTrip(AUDIT_KEYS, AuditValues(e, render));
  }

  /** Values that differ only in how the first two split their joint text substitute alike. */
  lemma {:induction false} SubstituteSameJoin(pieces: seq<string>, v1: seq<string>, v2: seq<string>)
    requires |pieces| == |v1| + 1 && |v1| == |v2| >= 2
    requires v1[2..] == v2[2..]
    requires v1[0] + pieces[1] + v1[1] == v2[0] + pieces[1] + v2[1]
    ensures Substitute(pieces, v1) == Substitute(pieces, v2)
  {
    var tail := Substitute(pieces[2..], v1[2..]);
    assert pieces[1..][1..] == pieces[2..] && v1[1..][1..] == v1[2..] && v2[1..][1..] == v2[2..];
    assert Substitute(pieces, v1) == pieces[0] + v1[0] + (pieces[1] + v1[1] + tail);
    assert Substitute(pieces, v2) == pieces[0] + v2[0] + (pieces[1] + v2[1] + tail);
    assert pieces[0] + v1[0] + (pieces[1] + v1[1] + tail) == pieces[0] + (v1[0] + pieces[1] + v1[1]) + tail;
    assert pieces[0] + v2[0] + (pieces[1] + v2[1] + tail) == pieces[0] + (v2[0] + pieces[1] + v2[1]) + tail;
  }

  /**
   * The two forged values: a value, the separator before `action`, another
   * value. Kept apart so that these literal comparisons are checked on their own.
   */
  lemma ForgedValues()
    ensures "p\",\"action\":\"q" == "p" + TEMPLATE_PIECES[1] + "q"
    ensures "q\",\"action\":\"r" == "q" + TEMPLATE_PIECES[1] + "r"
  {
  }

  /**
   * Without escaping, a quote inside a value can forge a member: two different
   * valid events below are written as the very same line.
   */
  lemma UnescapedQuotesAreAmbiguous(t: Instant, render: Instant -> string)
    ensures var e1 := ServiceAuditEvent("p\",\"action\":\"q", None, "r", None, t, None);
            var e2 := ServiceAuditEvent("p", None, "q\",\"action\":\"r", None, t, None);
            e1 != e2 && e1.Valid() && e2.Valid() && AuditLine(e1, render) == AuditLine(e2, render)
  {
    var e1 := ServiceAuditEvent("p\",\"action\":\"q", None, "r", None, t, None);
    var e2 := ServiceAuditEvent("p", None, "q\",\"action\":\"r", None, t, None);
    assert |e1.callingService| != |e2.callingService|;
    assert !IsWhitespace(e1.callingService[0]) && !IsWhitespace(e1.action[0]);
    assert !IsWhitespace(e2.callingService[0]) && !IsWhitespace(e2.action[0]);
    var v1, v2 := AuditValues(e1, render), AuditValues(e2, render);
    assert v1[2..] == v2[2..];
    var sep := TEMPLATE_PIECES[1];
    ForgedValues();
    assert v1[0] + sep + v1[1] == "p" + sep + "q" + sep + "r" == v2[0] + sep + v2[1];
    SubstituteSameJoin(TEMPLATE_PIECES, v1, v2);
  }

  // ---------------------------------------------------------------------------
  // Audit emission
  // ---------------------------------------------------------------------------

  /**
   * The event `audit` builds: the MDC's current correlation ID (or null), the
   * clock reading `now` as the timestamp, and the caller's four arguments.
   */
  function AuditRecord(
    context: map<string, string>,
    callingService: Option<string>, endpoint: Option<string>, action: Option<string>, resourceId: Option<string>,
    now: Instant): (r: Result<ServiceAuditEvent, IllegalArgumentException>)
    ensures r.Success? <==> !NullOrBlank(callingService) && !NullOrBlank(action)
    ensures r.Success? ==> r.value.Valid() && r.value.timestamp == now
    ensures r.Success? ==> Some(r.value.callingService) == callingService && Some(r.value.action) == action
    ensures r.Success? ==> r.value.correlationId == Lookup(context, CORRELATION_ID_KEY)
    ensures r.Success? ==> r.value.endpoint == endpoint && r.value.resourceId == resourceId
    ensures r.Failure? ==> r.error == (if NullOrBlank(callingService) then BLANK_CALLING_SERVICE else BLANK_ACTION)
  {
    NewServiceAuditEvent(callingService, endpoint, action, resourceId, Some(now), Lookup(context, CORRELATION_ID_KEY), now)
  }

  /** The log sink: the lines written so far, in order. */
  class AuditLog {
    var lines: seq<string>

    constructor ()
      ensures lines == []
    {
      lines := [];
    }

    /** log.info: appends exactly one line. */
    method Info(line: string)
      modifies this
      ensures lines == old(lines) + [line]
    {
      lines := lines + [line];
    }
  }

  class ServiceAuditService {
    const log: AuditLog

    constructor (log: AuditLog)
      ensures this.log == log
    {
      this.log := log;
    }

    /**
     * audit: reads (and only reads) the correlation ID from the MDC, builds the
     * event with the clock reading `now`, and writes one line. Construction
     * comes first, so a blank callingService or action throws and writes nothing.
     */
    method Audit(
      mdc: MdcContext,
      callingService: Option<string>, endpoint: Option<string>, action: Option<string>, resourceId: Option<string>,
      now: Instant, render: Instant -> string) returns (outcome: Outcome<IllegalArgumentException>)
      modifies log
      ensures mdc.entries == old(mdc.entries)
      ensures match AuditRecord(mdc.entries, callingService, endpoint, action, resourceId, now)
        case Success(e) => outcome == Pass && log.lines == old(log.lines) + [AuditLine(e, render)]
        case Failure(err) => outcome == Fail(err) && log.lines == old(log.lines)
    {
      var correlationId := mdc.Get(CORRELATION_ID_KEY);
      var event := NewServiceAuditEvent(callingService, endpoint, action, resourceId, Some(now), correlationId, now);
      if event.Failure? {
        return Fail(event.error);
      }
      log.Info(AuditLine(event.value, render));
      outcome := Pass;
    }
  }

  /**
   * An audit call made while the correlation filter's chain runs is tagged with
   * the ID the filter resolved for that request: the header's value, or the
   * generated UUID's text.
   */
  lemma AuditInsideFilterCarriesResolvedId(
    request: HttpRequest, generated: Uuid, before: map<string, string>,
    callingService: Option<string>, endpoint: Option<string>, action: Option<string>, resourceId: Option<string>,
    now: Instant, render: Instant -> string)
    requires !NullOrBlank(callingService) && !NullOrBlank(action)
    ensures var id := ResolveCorrelationId(GetHeader(request, CORRELATION_ID_HEADER), generated);
            var r := AuditRecord(before[CORRELATION_ID_KEY := id], callingService, endpoint, action, resourceId, now);
            r.Success? && r.value.correlationId == Some(id) && AuditValues(r.value, render)[4] == id
  {
  }
}
