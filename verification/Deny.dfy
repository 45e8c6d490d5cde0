/** Proxy.cpp: recognising a backend that refuses a request. */
module Deny {
  import opened Strings
  import opened Http

  datatype BackendDenyReason = NONE | SHUTDOWN | HIGH_LOAD

  /** The legacy wire format: a four digit code right after "HTTP/1.x ". */
  function LegacyVerdict(prefix: Bytes): BackendDenyReason {
    if |prefix| < 13 then NONE
    else if prefix[9..13] == "3210" then SHUTDOWN
    else if prefix[9..13] == "1234" then HIGH_LOAD
    else NONE
  }

  function StatusLineVerdict(prefix: Bytes): BackendDenyReason {
    match Find(prefix, CRLF)
    case None => NONE
    case Some(lineEnd) =>
      var statusLine := prefix[..lineEnd];
      if !Contains(statusLine, " 503 ") then NONE
      else if Contains(statusLine, "Shutdown in progress") then SHUTDOWN
      else if Contains(statusLine, "High Load in Backend Server") then HIGH_LOAD
      else NONE
  }

  function HeaderVerdict(parse: Parser, prefix: Bytes): BackendDenyReason {
    match parse(prefix)
    case ParseFailed => NONE
    case ParseIncomplete => NONE
    case ParseComplete(response, _) =>
      if response.status != SERVICE_UNAVAILABLE || response.smartmetError.None? then NONE
      else
        var value := Trim(response.smartmetError.value);
        if value == "3210" || ToLower(value) == "shutdown" then SHUTDOWN
        else if value == "1234" || ToLower(value) == "high_load" then HIGH_LOAD
        else NONE
  }

  /** What the first bytes alone decide, without parsing any header. */
  function WireVerdict(prefix: Bytes): BackendDenyReason {
    if LegacyVerdict(prefix) != NONE then LegacyVerdict(prefix) else StatusLineVerdict(prefix)
  }

  function ParseBackendDenyReason(parse: Parser, prefix: Bytes): BackendDenyReason {
    if WireVerdict(prefix) != NONE then WireVerdict(prefix) else HeaderVerdict(parse, prefix)
  }

  // ---------------------------------------------------------------- what each verdict means

  /** The four bytes after "HTTP/1.x ". */
  predicate Coded(x: Bytes, code: string)
    requires |code| == 4
  {
    |x| >= 13 && x[9] == code[0] && x[10] == code[1] && x[11] == code[2] && x[12] == code[3]
  }

  /** The phrase stands somewhere before position `end`. */
  ghost predicate SaysBefore(x: Bytes, phrase: string, end: nat) {
    exists k: nat :: OccursAt(x, phrase, k) && k + |phrase| <= end
  }

  /** The first line ends at `end`. */
  predicate FirstLineEnds(x: Bytes, end: nat) {
    && end + 2 <= |x| && x[end] == '\r' && x[end + 1] == '\n'
    && forall k :: 0 <= k < end ==> !(x[k] == '\r' && x[k + 1] == '\n')
  }

  /** The first line is complete, and has the status 503 and the phrase. */
  ghost predicate LineRefuses(x: Bytes, phrase: string) {
    exists end: nat :: FirstLineEnds(x, end) && SaysBefore(x, " 503 ", end) && SaysBefore(x, phrase, end)
  }

  /** The header block is complete, has the status 503 and an error header, and that is `value` but for white characters around it. */
  ghost predicate BlockHas(parse: Parser, x: Bytes, value: string) {
    && parse(x).ParseComplete? && parse(x).response.status == 503
    && parse(x).response.smartmetError.Some?
    && exists from: nat :: TrimmedFrom(parse(x).response.smartmetError.value, value, from)
  }

  ghost predicate BlockRefuses(parse: Parser, x: Bytes, code: string, name: string) {
    BlockHas(parse, x, code) || exists value :: BlockHas(parse, x, value) && SpellsIgnoringCase(value, name)
  }

  predicate SpellsIgnoringCase(value: string, name: string) {
    && |value| == |name|
    && forall i :: 0 <= i < |name| ==> (if 'A' <= value[i] <= 'Z' then (value[i] as int + 32) as char else value[i]) == name[i]
  }

  lemma LineBreakAt(x: Bytes, k: nat)
    ensures OccursAt(x, CRLF, k) <==> k + 2 <= |x| && x[k] == '\r' && x[k + 1] == '\n'
  {
    if k + 2 <= |x| {
      assert x[k..k + 2] == [x[k], x[k + 1]];
    }
  }

  lemma FindsLineEnd(x: Bytes, end: nat)
    ensures Find(x, CRLF) == Some(end) <==> FirstLineEnds(x, end)
  {
    LineBreakAt(x, end);
    var found := Find(x, CRLF);
    if FirstLineEnds(x, end) {
      assert OccursAt(x, CRLF, end) && found.Some?;
      LineBreakAt(x, found.value);
    }
    if found == Some(end) {
      forall k | 0 <= k < end
        ensures !(x[k] == '\r' && x[k + 1] == '\n')
      {
        LineBreakAt(x, k);
      }
    }
  }

  lemma ContainsMeansSays(x: Bytes, phrase: string, end: nat)
    requires end <= |x|
    ensures Contains(x[..end], phrase) <==> SaysBefore(x, phrase, end)
  {
    var line := x[..end];
    forall k: nat | k + |phrase| <= end
      ensures OccursAt(line, phrase, k) <==> OccursAt(x, phrase, k)
    {
      assert line[k..k + |phrase|] == x[k..k + |phrase|];
    }
    if k: nat :| OccursAt(x, phrase, k) && k + |phrase| <= end {
      assert OccursAt(line, phrase, k);
    }
  }

  lemma StatusLineVerdictMeaning(x: Bytes)
    ensures StatusLineVerdict(x) == SHUTDOWN <==> LineRefuses(x, "Shutdown in progress")
    ensures StatusLineVerdict(x) == HIGH_LOAD <==>
              LineRefuses(x, "High Load in Backend Server") && !LineRefuses(x, "Shutdown in progress")
  {
    forall end: nat
      ensures Find(x, CRLF) == Some(end) <==> FirstLineEnds(x, end)
    {
      FindsLineEnd(x, end);
    }
    if Find(x, CRLF).Some? {
      var end := Find(x, CRLF).value;
      ContainsMeansSays(x, " 503 ", end);
      ContainsMeansSays(x, "Shutdown in progress", end);
      ContainsMeansSays(x, "High Load in Backend Server", end);
    }
  }

  lemma LegacyVerdictMeaning(x: Bytes)
    ensures LegacyVerdict(x) == SHUTDOWN <==> Coded(x, "3210")
    ensures LegacyVerdict(x) == HIGH_LOAD <==> Coded(x, "1234")
  {
    if |x| >= 13 {
      assert x[9..13] == [x[9], x[10], x[11], x[12]];
    }
  }

  /** Trimming has one result. */
  lemma TrimmedOnce(s: string, t: string, i: nat, u: string, j: nat)
    requires TrimmedFrom(s, t, i) && TrimmedFrom(s, u, j)
    ensures t == u
  {
    if t != "" {
      assert s[i] == t[0] && s[i + |t| - 1] == t[|t| - 1];
    }
    if u != "" {
      assert s[j] == u[0] && s[j + |u| - 1] == u[|u| - 1];
    }
    assert t == "" <==> u == "";
  }

  lemma LowerSpells(value: string, name: string)
    ensures ToLower(value) == name <==> SpellsIgnoringCase(value, name)
  {
    forall i | 0 <= i < |value|
      ensures ToLower(value)[i] == if 'A' <= value[i] <= 'Z' then (value[i] as int + 32) as char else value[i]
    {
      ToLowerMeaning(value, i);
    }
  }

  lemma BlockHasTrimmed(parse: Parser, x: Bytes, value: string)
    requires parse(x).ParseComplete? && parse(x).response.status == 503 && parse(x).response.smartmetError.Some?
    ensures BlockHas(parse, x, value) <==> value == Trim(parse(x).response.smartmetError.value)
  {
    var text := parse(x).response.smartmetError.value;
    TrimMeaning(text);
    var from: nat :| TrimmedFrom(text, Trim(text), from);
    if i: nat :| TrimmedFrom(text, value, i) {
      TrimmedOnce(text, value, i, Trim(text), from);
    }
  }

  lemma BlockRefusesIfTrimmed(parse: Parser, x: Bytes, code: string, name: string)
    requires parse(x).ParseComplete? && parse(x).response.status == 503 && parse(x).response.smartmetError.Some?
    ensures
      var text := Trim(parse(x).response.smartmetError.value);
      BlockRefuses(parse, x, code, name) <==> text == code || ToLower(text) == name
  {
    var text := Trim(parse(x).response.smartmetError.value);
    forall value
      ensures BlockHas(parse, x, value) <==> value == text
    {
      BlockHasTrimmed(parse, x, value);
    }
    LowerSpells(text, name);
  }

  lemma HeaderVerdictMeaning(parse: Parser, x: Bytes)
    ensures HeaderVerdict(parse, x) == SHUTDOWN <==> BlockRefuses(parse, x, "3210", "shutdown")
    ensures HeaderVerdict(parse, x) == HIGH_LOAD <==>
              BlockRefuses(parse, x, "1234", "high_load") && !BlockRefuses(parse, x, "3210", "shutdown")
  {
    if parse(x).ParseComplete? && parse(x).response.status == 503 && parse(x).response.smartmetError.Some? {
      BlockRefusesIfTrimmed(parse, x, "3210", "shutdown");
      BlockRefusesIfTrimmed(parse, x, "1234", "high_load");
    }
  }

  /**
   * When a backend counts as shutting down, when as overloaded, and when as neither. The legacy code
   * comes before the phrase in the status line, the phrase before the error header, and of two phrases
   * in one line that about the shutdown.
   */
  lemma VerdictMeaning(parse: Parser, x: Bytes)
    ensures
      var codeS, codeH := Coded(x, "3210"), Coded(x, "1234");
      var lineS, lineH := LineRefuses(x, "Shutdown in progress"), LineRefuses(x, "High Load in Backend Server");
      var blockS, blockH := BlockRefuses(parse, x, "3210", "shutdown"), BlockRefuses(parse, x, "1234", "high_load");
      && (ParseBackendDenyReason(parse, x) == SHUTDOWN <==> codeS || (!codeH && (lineS || (!lineH && blockS))))
      && (ParseBackendDenyReason(parse, x) == HIGH_LOAD <==> codeH || (!codeS && !lineS && (lineH || (!blockS && blockH))))
      && (ParseBackendDenyReason(parse, x) == NONE <==> !codeS && !codeH && !lineS && !lineH && !blockS && !blockH)
  {
    LegacyVerdictMeaning(x);
    StatusLineVerdictMeaning(x);
    HeaderVerdictMeaning(parse, x);
  }

  // ---------------------------------------------------------------- verdicts that stay

  /** A complete header block contains a whole status line. */
  ghost predicate StatusLineFirst(parse: Parser) {
    forall x: Bytes :: parse(x).ParseComplete? ==> 13 <= |x| && Find(x, CRLF).Some?
  }

  lemma StatusLineVerdictIsStable(x: Bytes, y: Bytes)
    requires Find(x, CRLF).Some?
    ensures StatusLineVerdict(x + y) == StatusLineVerdict(x)
  {
    FindIsStable(x, y, CRLF);
    var lineEnd := Find(x, CRLF).value;
    assert (x + y)[..lineEnd] == x[..lineEnd];
  }

  /** A non-empty reason phrase needs more room than the legacy code does. */
  lemma StatusLineVerdictIsLong(x: Bytes)
    requires StatusLineVerdict(x) != NONE
    ensures 13 <= |x|
  {
  }

  lemma LegacyVerdictIsStable(x: Bytes, y: Bytes)
    requires 13 <= |x|
    ensures LegacyVerdict(x + y) == LegacyVerdict(x)
  {
  }

  /** A refusal that the first bytes alone decide, no further byte can change. */
  lemma WireVerdictIsStable(parse: Parser, x: Bytes, y: Bytes)
    requires WireVerdict(x) != NONE
    ensures ParseBackendDenyReason(parse, x + y) == ParseBackendDenyReason(parse, x) == WireVerdict(x)
  {
    if StatusLineVerdict(x) != NONE {
      StatusLineVerdictIsLong(x);
      StatusLineVerdictIsStable(x, y);
    }
    LegacyVerdictIsStable(x, y);
  }

  // ---------------------------------------------------------------- when nothing to refuse is final

  /** Bytes 9 to 12 are not all there yet, and those that are begin one of the two codes. */
  predicate LegacyOpen(x: Bytes) {
    |x| < 9 || (|x| < 13 && (x[9..] <= "3210" || x[9..] <= "1234"))
  }

  predicate WireSettled(x: Bytes) {
    Find(x, CRLF).Some? && !LegacyOpen(x)
  }

  lemma CodeInPlace(x: Bytes, code: Bytes)
    requires |code| == 4 && |x| <= 13 && (|x| < 9 || x[9..] <= code)
    ensures exists y :: |x + y| == 13 && (x + y)[9..13] == code
  {
    var y := if |x| < 9 then seq(9 - |x|, _ => '0') + code else code[|x| - 9..];
    assert |x + y| == 13 && (x + y)[9..13] == code;
  }

  lemma LegacyCanBeCompleted(x: Bytes)
    requires LegacyOpen(x)
    ensures exists y :: WireVerdict(x + y) != NONE
  {
    var code := if |x| < 9 || x[9..] <= "3210" then "3210" else "1234";
    CodeInPlace(x, code);
    var y :| |x + y| == 13 && (x + y)[9..13] == code;
    assert WireVerdict(x + y) != NONE;
  }

  lemma CodeBegins(x: Bytes, y: Bytes, code: Bytes)
    requires 9 <= |x| < 13 && |x + y| >= 13 && (x + y)[9..13] == code
    ensures x[9..] <= code
  {
    forall i | 9 <= i < |x|
      ensures x[i] == code[i - 9]
    {
      assert code[i - 9] == (x + y)[9..13][i - 9];
    }
  }

  lemma LegacyStaysOut(x: Bytes, y: Bytes)
    requires !LegacyOpen(x) && LegacyVerdict(x) == NONE
    ensures LegacyVerdict(x + y) == NONE
  {
    if |x| >= 13 {
      LegacyVerdictIsStable(x, y);
    } else {
      if |x + y| >= 13 {
        CodeBegins(x, y, (x + y)[9..13]);
      }
    }
  }

  const REFUSING_LINE := " 503 " + "Shutdown in progress"

  lemma NoLineBreakBefore(x: Bytes, t: Bytes, k: nat)
    requires Find(x, CRLF).None? && t != "" && t[0] != '\n' && '\r' !in t && k < |x + t|
    ensures !OccursAt(x + t + CRLF, CRLF, k)
  {
    var s := x + t + CRLF;
    var pair := s[k..k + 2];
    if k + 1 < |x| {
      assert !OccursAt(x, CRLF, k);
      assert pair == x[k..k + 2];
    } else if k < |x| {
      assert pair[1] == t[0];
    } else {
      assert pair[0] == t[k - |x|];
    }
  }

  /** A line that is begun can be ended as one likes. */
  lemma LineEndsAt(x: Bytes, t: Bytes)
    requires Find(x, CRLF).None? && t != "" && t[0] != '\n' && '\r' !in t
    ensures Find(x + t + CRLF, CRLF) == Some(|x + t|)
  {
    assert OccursAt(x + t + CRLF, CRLF, |x + t|);
    var k := Find(x + t + CRLF, CRLF).value;
    if k < |x + t| {
      NoLineBreakBefore(x, t, k);
    }
  }

  lemma StatusLineCanBeCompleted(x: Bytes)
    requires Find(x, CRLF).None?
    ensures WireVerdict(x + REFUSING_LINE + CRLF) != NONE
  {
    var line := x + REFUSING_LINE;
    LineEndsAt(x, REFUSING_LINE);
    assert (line + CRLF)[..|line|] == line;
    assert line == x + " 503 " + "Shutdown in progress" == (x + " 503 ") + "Shutdown in progress" + "";
    ContainsPart(x, " 503 ", "Shutdown in progress");
    ContainsPart(x + " 503 ", "Shutdown in progress", "");
  }

  /**
   * The first bytes show no refusal, and never will, exactly if the status line is complete and its
   * legacy code can no longer become one of the two that refuse.
   */
  lemma NoneIsFinalOnTheWire(x: Bytes)
    requires WireVerdict(x) == NONE
    ensures (forall y: Bytes :: WireVerdict(x + y) == NONE) <==> WireSettled(x)
  {
    if Find(x, CRLF).None? {
      StatusLineCanBeCompleted(x);
      assert x + REFUSING_LINE + CRLF == x + (REFUSING_LINE + CRLF);
    } else if LegacyOpen(x) {
      LegacyCanBeCompleted(x);
    } else {
      forall y: Bytes
        ensures WireVerdict(x + y) == NONE
      {
        LegacyStaysOut(x, y);
        StatusLineVerdictIsStable(x, y);
      }
    }
  }

  /** Whatever the parser, a verdict of NONE can still be overturned while the first bytes are not settled. */
  lemma UnsettledCanBeOverturned(parse: Parser, x: Bytes)
    requires ParseBackendDenyReason(parse, x) == NONE && !WireSettled(x)
    ensures exists y: Bytes :: ParseBackendDenyReason(parse, x + y) != NONE
  {
    NoneIsFinalOnTheWire(x);
    var y: Bytes :| WireVerdict(x + y) != NONE;
    assert ParseBackendDenyReason(parse, x + y) != NONE;
  }

  lemma HeaderVerdictIsStable(parse: Parser, x: Bytes, y: Bytes)
    requires parse(x + y) == parse(x)
    ensures HeaderVerdict(parse, x + y) == HeaderVerdict(parse, x)
  {
  }

  /** A denial, and any verdict reached on a complete header block, is final. */
  lemma {:induction false} VerdictIsFinal(parse: Parser, x: Bytes, z: Bytes)
    requires StableParser(parse) && StatusLineFirst(parse) && x <= z
    requires ParseBackendDenyReason(parse, x) != NONE || parse(x).ParseComplete?
    ensures ParseBackendDenyReason(parse, z) == ParseBackendDenyReason(parse, x)
  {
    var y := z[|x|..];
    assert z == x + y;
    if WireVerdict(x) != NONE {
      WireVerdictIsStable(parse, x, y);
    } else {
      HeaderVerdictIsComplete(parse, x);
      StableUnderExtension(parse, x, z);
      LegacyVerdictIsStable(x, y);
      StatusLineVerdictIsStable(x, y);
      HeaderVerdictIsStable(parse, x, y);
    }
  }

  lemma HeaderVerdictIsComplete(parse: Parser, x: Bytes)
    requires StatusLineFirst(parse)
    requires HeaderVerdict(parse, x) != NONE || parse(x).ParseComplete?
    ensures parse(x).ParseComplete? && 13 <= |x| && Find(x, CRLF).Some?
  {
  }

  /** The assumptions on the parser are met by any parser to the first blank line that wants a status line. */
  lemma StatusLineParserIsStable(headers: Bytes -> Option<Response>)
    requires forall block: Bytes :: headers(block).Some? ==> 13 <= |block|
    ensures StableParser(BlankLineParser(headers)) && StatusLineFirst(BlankLineParser(headers))
  {
    var parse := BlankLineParser(headers);
    BlankLineParserIsStable(headers);
    forall x: Bytes | parse(x).ParseComplete?
      ensures 13 <= |x| && Find(x, CRLF).Some?
    {
      FindsBeginning(x, CRLF, CRLF);
    }
  }
}
