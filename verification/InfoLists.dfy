/**
 * BackendInfoRec.cpp, with the list columns of QEngineInfoRec.cpp and GridGenerationsInfoRec.cpp:
 * printing lists into one text field and reading them back.
 */
module InfoLists {
  import opened Strings

  // ---------------------------------------------------------------- reading

  /** Where the first token ends. */
  function TokenEnd(s: string, separators: string): (i: nat)
    ensures i <= |s| && (forall k :: 0 <= k < i ==> s[k] !in separators) && (i < |s| ==> s[i] in separators)
  {
    if s == "" || s[0] in separators then 0 else 1 + TokenEnd(s[1..], separators)
  }

  /** Where a run of separators that has reached `i` ends. */
  function RunEnd(s: string, separators: string, i: nat): (j: nat)
    requires i <= |s|
    ensures i <= j <= |s| && (forall k :: i <= k < j ==> s[k] in separators) && (j < |s| ==> s[j] !in separators)
    decreases |s| - i
  {
    if i == |s| || s[i] !in separators then i else RunEnd(s, separators, i + 1)
  }

  /** boost::algorithm::split with token_compress_on: a run of separators counts as one. */
  function Split(s: string, separators: string): seq<string>
    decreases |s|
  {
    var i := TokenEnd(s, separators);
    if i == |s| then [s] else [s[..i]] + Split(s[RunEnd(s, separators, i)..], separators)
  }

  /** Tokens with the gaps between them. */
  function Weave(tokens: seq<string>, gaps: seq<string>): string
    requires |tokens| == |gaps| + 1
  {
    if gaps == [] then tokens[0] else tokens[0] + gaps[0] + Weave(tokens[1..], gaps[1..])
  }

  predicate IsGap(gap: string, separators: string) {
    gap != "" && forall c :: c in gap ==> c in separators
  }

  /** The separators between the tokens. */
  ghost function Gaps(s: string, separators: string): seq<string>
    decreases |s|
  {
    var i := TokenEnd(s, separators);
    var j := RunEnd(s, separators, i);
    if i == |s| then [] else [s[i..j]] + Gaps(s[j..], separators)
  }

  lemma SplitOnce(s: string, separators: string)
    requires TokenEnd(s, separators) < |s|
    ensures
      var i := TokenEnd(s, separators);
      var j := RunEnd(s, separators, i);
      && i < j && s == s[..i] + s[i..j] + s[j..] && IsGap(s[i..j], separators)
      && (s[j..] != "" ==> TokenEnd(s[j..], separators) > 0)
  {
  }

  lemma {:induction false} TokensAreApart(s: string, separators: string)
    ensures
      var tokens := Split(s, separators);
      && (forall t, c :: t in tokens && c in t ==> c !in separators)
      && (forall k :: 0 < k < |tokens| - 1 ==> tokens[k] != "")
      && (|tokens| > 1 && TokenEnd(s, separators) > 0 ==> tokens[0] != "")
    decreases |s|
  {
    if TokenEnd(s, separators) < |s| {
      SplitOnce(s, separators);
      TokensAreApart(s[RunEnd(s, separators, TokenEnd(s, separators))..], separators);
    }
  }

  lemma {:induction false} TokensAndGaps(s: string, separators: string)
    ensures
      var tokens, gaps := Split(s, separators), Gaps(s, separators);
      |tokens| == |gaps| + 1 && Weave(tokens, gaps) == s && forall g :: g in gaps ==> IsGap(g, separators)
    decreases |s|
  {
    if TokenEnd(s, separators) < |s| {
      SplitOnce(s, separators);
      TokensAndGaps(s[RunEnd(s, separators, TokenEnd(s, separators))..], separators);
    }
  }

  /** No token has a separator, only the first and the last may be empty, and between them are separators only. */
  lemma SplitMeaning(s: string, separators: string)
    ensures
      var tokens := Split(s, separators);
      && (forall t, c :: t in tokens && c in t ==> c !in separators)
      && (forall k :: 0 < k < |tokens| - 1 ==> tokens[k] != "")
      && exists gaps :: |tokens| == |gaps| + 1 && Weave(tokens, gaps) == s && forall g :: g in gaps ==> IsGap(g, separators)
  {
    TokensAreApart(s, separators);
    TokensAndGaps(s, separators);
  }

  function TrimEach(tokens: seq<string>): (r: seq<string>)
    ensures |r| == |tokens| && forall i :: 0 <= i < |r| ==> r[i] == Trim(tokens[i])
  {
    seq(|tokens|, i requires 0 <= i < |tokens| => Trim(tokens[i]))
  }

  function StringVector(field: Option<string>, separators: string): seq<string> {
    if field.None? || Trim(field.value) == "" then [] else TrimEach(Split(Trim(field.value), separators))
  }

  method GetStringVectorField(field: Option<string>, separators: string) returns (result: seq<string>)
    ensures result == StringVector(field, separators)
  {
    result := [];
    if field.None? {
      return;
    }
    var text := Trim(field.value);
    if text == "" {
      return;
    }
    var tokens := Split(text, separators);
    result := tokens;
    for i := 0 to |tokens|
      invariant |result| == |tokens|
      invariant forall k :: 0 <= k < i ==> result[k] == Trim(tokens[k])
      invariant forall k :: i <= k < |tokens| ==> result[k] == tokens[k]
    {
      result := result[i := Trim(result[i])];
    }
    assert result == TrimEach(tokens);
  }

  // ---------------------------------------------------------------- printing

  /** Fmi::join with ", " */
  function Join(tokens: seq<string>): string {
    if tokens == [] then "" else if |tokens| == 1 then tokens[0] else tokens[0] + ", " + Join(tokens[1..])
  }

  /** A list column of as_vector. */
  function PrintList(tokens: seq<string>): string {
    if tokens == [] then "nan" else Join(tokens)
  }

  // ---------------------------------------------------------------- round trip

  /** A token that can be told apart in a joined text. */
  predicate Plain(token: string, separators: string) {
    token != "" && !IsSpace(token[0]) && !IsSpace(token[|token| - 1]) && forall c :: c in token ==> c !in separators
  }

  lemma TrimOfBare(s: string)
    requires s != "" && !IsSpace(s[0]) && !IsSpace(s[|s| - 1])
    ensures Trim(s) == s && Trim(" " + s) == s
  {
  }

  lemma {:induction false} JoinIsBare(tokens: seq<string>, separators: string)
    requires tokens != [] && forall t :: t in tokens ==> Plain(t, separators)
    ensures var s := Join(tokens);
            s != "" && s[0] !in separators && !IsSpace(s[0]) && !IsSpace(s[|s| - 1])
  {
    assert tokens[0] in tokens;
    if |tokens| > 1 {
      JoinIsBare(tokens[1..], separators);
    }
  }

  /** The text up to the first separator is the first token; the rest starts after the comma, or after ", ". */
  lemma {:induction false} SplitFirst(token: string, rest: string, separators: string)
    requires (forall c :: c in token ==> c !in separators) && ',' in separators
    requires rest != "" && rest[0] !in separators
    ensures Split(token + ", " + rest, separators) ==
            [token] + Split(if ' ' in separators then rest else " " + rest, separators)
  {
    var s := token + ", " + rest;
    assert s[|token|] == ',' && forall k :: 0 <= k < |token| ==> s[k] == token[k];
    assert TokenEnd(s, separators) == |token|;
    var j := RunEnd(s, separators, |token|);
    assert s[|token| + 1] == ' ' && s[|token| + 2] == rest[0];
    assert s[..|token|] == token;
    if ' ' in separators {
      assert j == |token| + 2 && s[j..] == rest;
    } else {
      assert j == |token| + 1 && s[j..] == " " + rest;
    }
  }

  lemma SplitOfOne(token: string, separators: string)
    requires forall c :: c in token ==> c !in separators
    ensures Split(token, separators) == [token]
  {
  }

  /** With blanks among the separators, splitting undoes joining by itself. */
  lemma {:induction false} SplitOfJoin(tokens: seq<string>, separators: string)
    requires ',' in separators && ' ' in separators
    requires tokens != [] && forall t :: t in tokens ==> Plain(t, separators)
    ensures Split(Join(tokens), separators) == tokens
  {
    assert tokens[0] in tokens;
    if |tokens| == 1 {
      SplitOfOne(tokens[0], separators);
    } else {
      JoinIsBare(tokens[1..], separators);
      SplitFirst(tokens[0], Join(tokens[1..]), separators);
      SplitOfJoin(tokens[1..], separators);
    }
  }

  /** All but the first token with the blank that follows the comma. */
  function Padded(pad: string, tokens: seq<string>): (r: seq<string>)
    ensures |r| == |tokens|
    ensures forall i :: 0 <= i < |r| ==> r[i] == (if i == 0 then pad else " ") + tokens[i]
    decreases |tokens|
  {
    if tokens == [] then [] else [pad + tokens[0]] + Padded(" ", tokens[1..])
  }

  lemma PadAssociates(pad: string, token: string, rest: string)
    ensures pad + (token + ", " + rest) == (pad + token) + ", " + rest
  {
  }

  /** Without, every token but the first comes back with a blank in front. */
  lemma {:induction false} SplitOfJoinAtCommas(tokens: seq<string>, separators: string, pad: string)
    requires ',' in separators && ' ' !in separators && (pad == "" || pad == " ")
    requires tokens != [] && forall t :: t in tokens ==> Plain(t, separators)
    ensures Split(pad + Join(tokens), separators) == Padded(pad, tokens)
  {
    assert tokens[0] in tokens;
    if |tokens| == 1 {
      SplitOfOne(pad + tokens[0], separators);
    } else {
      JoinIsBare(tokens[1..], separators);
      SplitFirst(pad + tokens[0], Join(tokens[1..]), separators);
      PadAssociates(pad, tokens[0], Join(tokens[1..]));
      SplitOfJoinAtCommas(tokens[1..], separators, " ");
    }
  }

  lemma PlainTokensTrim(tokens: seq<string>, split: seq<string>, separators: string)
    requires |split| == |tokens| && forall t :: t in tokens ==> Plain(t, separators)
    requires forall i :: 0 <= i < |tokens| ==> split[i] == tokens[i] || split[i] == " " + tokens[i]
    ensures TrimEach(split) == tokens
  {
    forall i | 0 <= i < |tokens|
      ensures Trim(split[i]) == tokens[i]
    {
      assert tokens[i] in tokens;
      TrimOfBare(tokens[i]);
    }
  }

  lemma NotANumberParses(separators: string)
    requires forall c :: c in "nan" ==> c !in separators
    ensures StringVector(Some("nan"), separators) == ["nan"]
  {
  }

  lemma JoinedAtBlanksParses(tokens: seq<string>)
    requires tokens != [] && forall t :: t in tokens ==> Plain(t, " ,")
    ensures StringVector(Some(Join(tokens)), " ,") == tokens
  {
    JoinIsBare(tokens, " ,");
    TrimOfBare(Join(tokens));
    SplitOfJoin(tokens, " ,");
    PlainTokensTrim(tokens, tokens, " ,");
  }

  lemma JoinedAtCommasParses(tokens: seq<string>)
    requires tokens != [] && forall t :: t in tokens ==> Plain(t, ",")
    ensures StringVector(Some(Join(tokens)), ",") == tokens
  {
    JoinIsBare(tokens, ",");
    TrimOfBare(Join(tokens));
    SplitOfJoinAtCommas(tokens, ",", "");
    assert "" + Join(tokens) == Join(tokens) && "" + tokens[0] == tokens[0];
    PlainTokensTrim(tokens, Split(Join(tokens), ","), ",");
  }

  /**
   * A printed list is read back exactly, with blanks and commas as separators or with commas alone,
   * unless it is empty: the word printed for an empty list reads as a list of one.
   */
  lemma {:induction false} ListRoundTrip(tokens: seq<string>, separators: string)
    requires separators == " ," || separators == ","
    requires forall t :: t in tokens ==> Plain(t, separators)
    ensures StringVector(Some(PrintList(tokens)), separators) == tokens <==> tokens != []
  {
    if tokens == [] {
      NotANumberParses(separators);
    } else if separators == "," {
      JoinedAtCommasParses(tokens);
    } else {
      JoinedAtBlanksParses(tokens);
    }
  }

  // ---------------------------------------------------------------- integers

  function PrintInt(n: int): string {
    if n < 0 then "-" + Decimal(-n) else Decimal(n)
  }

  function ParseDigits(s: string): Option<nat> {
    if s == "" then Some(0)
    else
      var c := s[|s| - 1];
      if '0' <= c <= '9' && ParseDigits(s[..|s| - 1]).Some? then
        Some(10 * ParseDigits(s[..|s| - 1]).value + (c - '0') as nat)
      else None
  }

  // The values of std::int64_t
  predicate Fits64(n: int) {
    -0x8000_0000_0000_0000 <= n < 0x8000_0000_0000_0000
  }

  function Narrow(n: int): Option<int> {
    if Fits64(n) then Some(n) else None
  }

  /** Digits and nothing else can be read. */
  lemma {:induction false} DigitsParse(s: string)
    ensures ParseDigits(s).Some? <==> forall i :: 0 <= i < |s| ==> '0' <= s[i] <= '9'
  {
    if s != "" {
      DigitsParse(s[..|s| - 1]);
    }
  }

  /** Fmi::stol; None is an exception, as for a number that does not fit. */
  function ParseInt(s: string): Option<int> {
    if s == "" || s == "-" then None
    else if s[0] == '-' then
      var digits := ParseDigits(s[1..]);
      if digits.Some? then Narrow(-(digits.value as int)) else None
    else
      var digits := ParseDigits(s);
      if digits.Some? then Narrow(digits.value) else None
  }

  lemma DigitValue(d: nat)
    requires d < 10
    ensures '0' <= DIGITS[d] <= '9' && (DIGITS[d] - '0') as nat == d
  {
  }

  predicate AllDigits(s: string) {
    forall c :: c in s ==> '0' <= c <= '9'
  }

  /** One more digit at the end. */
  lemma DigitAppended(s: string, d: nat)
    requires d < 10 && AllDigits(s) && ParseDigits(s).Some?
    ensures AllDigits(s + [DIGITS[d]]) && ParseDigits(s + [DIGITS[d]]) == Some(10 * ParseDigits(s).value + d)
  {
    DigitValue(d);
    assert (s + [DIGITS[d]])[..|s|] == s;
  }

  lemma {:induction false} DecimalParses(n: nat)
    ensures ParseDigits(Decimal(n)) == Some(n) && Decimal(n) != "" && AllDigits(Decimal(n))
  {
    if n < 10 {
      DigitAppended("", n);
    } else {
      DecimalParses(n / 10);
      DigitAppended(Decimal(n / 10), n % 10);
    }
  }

  lemma DigitsArePlain(s: string)
    requires s != "" && AllDigits(s)
    ensures Plain(s, " ,") && Plain("-" + s, " ,") && s[0] != '-'
  {
    assert s[0] in s && s[|s| - 1] in s;
    assert ("-" + s)[|s|] == s[|s| - 1];
  }

  lemma IntParses(n: int)
    ensures ParseInt(PrintInt(n)) == Narrow(n) && PrintInt(n) != "-" && Plain(PrintInt(n), " ,")
  {
    var digits := Decimal(if n < 0 then -n else n);
    DecimalParses(if n < 0 then -n else n);
    DigitsArePlain(digits);
    assert ("-" + digits)[1..] == digits;
  }

  /** The JSON values an integer list field can hold. */
  datatype JsonField = Missing | Null | Number(n: int) | Text(s: string) | OtherType

  /** Every token but "-" must be an integer. */
  function ParseTokens(tokens: seq<string>): Option<seq<int>> {
    if tokens == [] then Some([])
    else if tokens[0] == "-" then ParseTokens(tokens[1..])
    else
      match (ParseInt(tokens[0]), ParseTokens(tokens[1..]))
      case (Some(n), Some(rest)) => Some([n] + rest)
      case _ => None
  }

  /** Dashes are passed over, wherever they stand, and any other token that is no integer is an error. */
  lemma {:induction false} DashesAreSkipped(before: seq<string>, after: seq<string>)
    ensures ParseTokens(before + ["-"] + after) == ParseTokens(before + after)
    ensures ParseTokens(before).None? <==> exists t :: t in before && t != "-" && ParseInt(t).None?
  {
    if before == [] {
      assert before + ["-"] + after == ["-"] + after && before + after == after;
      assert (["-"] + after)[1..] == after;
    } else {
      DashesAreSkipped(before[1..], after);
      assert (before + ["-"] + after)[1..] == before[1..] + ["-"] + after;
      assert (before + after)[1..] == before[1..] + after;
      assert before == [before[0]] + before[1..];
    }
  }

  /** get_integer_vector_field; None is an exception. */
  function IntegerVector(field: JsonField, separators: string): Option<seq<int>> {
    match field
    case Missing => Some([])
    case Null => Some([])
    case Number(n) => if Fits64(n) then Some([n]) else None
    case Text(s) => ParseTokens(Split(s, separators))
    case OtherType => None
  }

  /** The numbers read so far, with what the remaining tokens give. */
  function Continued(numbers: seq<int>, rest: Option<seq<int>>): Option<seq<int>> {
    if rest.Some? then Some(numbers + rest.value) else None
  }

  lemma ContinuedFromStart(rest: Option<seq<int>>)
    ensures Continued([], rest) == rest
  {
    if rest.Some? {
      assert [] + rest.value == rest.value;
    }
  }

  lemma ContinuedByOne(numbers: seq<int>, n: int, rest: Option<seq<int>>)
    ensures Continued(numbers, Continued([n], rest)) == Continued(numbers + [n], rest)
  {
    if rest.Some? {
      assert numbers + ([n] + rest.value) == (numbers + [n]) + rest.value;
    }
  }

  method GetIntegerVectorField(field: JsonField, separators: string) returns (result: Option<seq<int>>)
    ensures result == IntegerVector(field, separators)
    ensures field.Missing? || field.Null? ==> result == Some([])
    ensures field.Number? ==>
              result == if -9223372036854775808 <= field.n <= 9223372036854775807 then Some([field.n]) else None
    ensures field.OtherType? ==> result == None
    ensures field.Text? ==>
              (result == None <==> exists t :: t in Split(field.s, separators) && t != "-" && ParseInt(t).None?)
  {
    if field.Text? {
      DashesAreSkipped(Split(field.s, separators), []);
    }
    match field
    case Missing | Null =>
      return Some([]);
    case Number(n) =>
      return if Fits64(n) then Some([n]) else None;
    case OtherType =>
      return None;
    case Text(s) =>
      var tokens := Split(s, separators);
      var numbers: seq<int> := [];
      assert tokens[0..] == tokens;
      ContinuedFromStart(ParseTokens(tokens));
      for i := 0 to |tokens|
        invariant ParseTokens(tokens) == Continued(numbers, ParseTokens(tokens[i..]))
      {
        assert tokens[i..][1..] == tokens[i + 1..];
        if tokens[i] != "-" {
          var parsed := ParseInt(tokens[i]);
          if parsed.None? {
            return None;
          }
          ContinuedByOne(numbers, parsed.value, ParseTokens(tokens[i + 1..]));
          numbers := numbers + [parsed.value];
        }
      }
      assert tokens[|tokens|..] == [] && numbers + [] == numbers;
      return Some(numbers);
  }

  function PrintInts(ns: seq<int>): (r: seq<string>)
    ensures |r| == |ns| && forall i :: 0 <= i < |r| ==> r[i] == PrintInt(ns[i])
  {
    seq(|ns|, i requires 0 <= i < |ns| => PrintInt(ns[i]))
  }

  predicate AllFit(ns: seq<int>) {
    forall n :: n in ns ==> Fits64(n)
  }

  lemma FirstTokenParses(n: int, tokens: seq<string>)
    ensures ParseTokens([PrintInt(n)] + tokens) == if Fits64(n) then Continued([n], ParseTokens(tokens)) else None
  {
    IntParses(n);
    assert ([PrintInt(n)] + tokens)[1..] == tokens;
  }

  function IfAllFit(ns: seq<int>): Option<seq<int>> {
    if AllFit(ns) then Some(ns) else None
  }

  lemma OneMoreFits(n: int, ns: seq<int>)
    ensures IfAllFit([n] + ns) == if Fits64(n) then Continued([n], IfAllFit(ns)) else None
  {
    assert forall m :: m in [n] + ns <==> m == n || m in ns;
  }

  lemma PrintIntsOfMore(n: int, ns: seq<int>)
    ensures PrintInts([n] + ns) == [PrintInt(n)] + PrintInts(ns)
  {
  }

  lemma {:induction false} PrintedTokensParse(ns: seq<int>)
    ensures ParseTokens(PrintInts(ns)) == IfAllFit(ns)
  {
    if ns != [] {
      assert ns == [ns[0]] + ns[1..];
      PrintedTokensParse(ns[1..]);
      FirstTokenParses(ns[0], PrintInts(ns[1..]));
      PrintIntsOfMore(ns[0], ns[1..]);
      OneMoreFits(ns[0], ns[1..]);
    }
  }

  /**
   * Printed levels are read back exactly if and only if there are some and each fits 64 bits, as they all
   * do where they come from; otherwise reading them is an error.
   */
  lemma {:induction false} IntegerRoundTrip(ns: seq<int>)
    ensures IntegerVector(Text(PrintList(PrintInts(ns))), " ,") == if ns != [] && AllFit(ns) then Some(ns) else None
  {
    if ns == [] {
      assert PrintInts(ns) == [];
      SplitOfOne("nan", " ,");
      assert ParseDigits("nan") == None;
    } else {
      forall t | t in PrintInts(ns)
        ensures Plain(t, " ,")
      {
        var i :| 0 <= i < |ns| && PrintInts(ns)[i] == t;
        IntParses(ns[i]);
      }
      SplitOfJoin(PrintInts(ns), " ,");
      PrintedTokensParse(ns);
    }
  }
}
