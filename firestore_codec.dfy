/**
  The hand-rolled Firestore REST codec of `FirebaseRestFirestore`: the JSON
  body `SetDocument` builds by string concatenation, `EscapeJson`, the
  brace-matching scanner `FindMatchingBrace`, the field parser
  (`ParseFirestoreResponse`, `ParseFirestoreValue`),
  the document splitter inside `QueryDocuments`, and the conversions to and
  from the `FirestoreDocument` record.

  .NET exceptions raised inside the parser are modelled as `Thrown`;
  `GetDocument` and `QueryDocuments` catch them.
 */
module FirestoreCodec {
  import opened Wrappers
  import opened Numbers
  import opened Strings

  // ---------------------------------------------------------------------
  // Values

  /** A value of the `Dictionary<string, object>` handed to `SetDocument`.
      `VReal` and `VOther` carry the (culture-dependent) `ToString()` text
      of a float/double or of any other object. */
  datatype Value =
    | VString(s: string)
    | VInteger(n: int)     // an int or a long
    | VReal(text: string)  // a float or a double
    | VBool(b: bool)
    | VOther(text: string)
    | VNull

  /** A dictionary in its enumeration order. */
  type Entries = seq<(string, Value)>

  predicate DistinctKeys(es: Entries)
  {
    forall i, j :: 0 <= i < j < |es| ==> es[i].0 != es[j].0
  }

  /** A boxed value the parser returns: string, int, double or bool. */
  datatype Field = FString(s: string) | FInt(n: int) | FDouble(r: real) | FBool(b: bool)

  // ---------------------------------------------------------------------
  // EscapeJson

  /** `EscapeJson`: four successive `Replace` calls, backslashes first. */
  function EscapeJson(s: string): string
  {
    ReplaceChar(ReplaceChar(ReplaceChar(ReplaceChar(s, '\\', "\\\\"), '"', "\\\""), '\n', "\\n"), '\r', "\\r")
  }

  predicate IsEscaped(c: char)
  {
    c == '\\' || c == '"' || c == '\n' || c == '\r'
  }

  /** What a single character becomes. */
  function EscapeChar(c: char): string
  {
    if c == '\\' then "\\\\"
    else if c == '"' then "\\\""
    else if c == '\n' then "\\n"
    else if c == '\r' then "\\r"
    else [c]
  }

  /** Character-by-character escaping, the reference for EscapeJson. */
  function EscapeEach(s: string): string
  {
    if s == [] then [] else EscapeChar(s[0]) + EscapeEach(s[1..])
  }

  function CountEscaped(s: string): nat
  {
    if s == [] then 0 else (if IsEscaped(s[0]) then 1 else 0) + CountEscaped(s[1..])
  }

  lemma EscapeJsonConcat(a: string, b: string)
    ensures EscapeJson(a + b) == EscapeJson(a) + EscapeJson(b)
  {
    ReplaceCharConcat(a, b, '\\', "\\\\");
    var a1, b1 := ReplaceChar(a, '\\', "\\\\"), ReplaceChar(b, '\\', "\\\\");
    ReplaceCharConcat(a1, b1, '"', "\\\"");
    var a2, b2 := ReplaceChar(a1, '"', "\\\""), ReplaceChar(b1, '"', "\\\"");
    ReplaceCharConcat(a2, b2, '\n', "\\n");
    var a3, b3 := ReplaceChar(a2, '\n', "\\n"), ReplaceChar(b2, '\n', "\\n");
    ReplaceCharConcat(a3, b3, '\r', "\\r");
  }

  lemma EscapeJsonChar(c: char)
    ensures EscapeJson([c]) == EscapeChar(c)
  {
    ReplaceCharSingle(c, '\\', "\\\\");
    var s1 := ReplaceChar([c], '\\', "\\\\");
    if c == '\\' {
      ReplaceCharAbsent(s1, '"', "\\\"");
      ReplaceCharAbsent(s1, '\n', "\\n");
      ReplaceCharAbsent(s1, '\r', "\\r");
    } else {
      ReplaceCharSingle(c, '"', "\\\"");
      var s2 := ReplaceChar(s1, '"', "\\\"");
      if c == '"' {
        ReplaceCharAbsent(s2, '\n', "\\n");
        ReplaceCharAbsent(s2, '\r', "\\r");
      } else {
        ReplaceCharSingle(c, '\n', "\\n");
        var s3 := ReplaceChar(s2, '\n', "\\n");
        if c == '\n' {
          ReplaceCharAbsent(s3, '\r', "\\r");
        } else {
          ReplaceCharSingle(c, '\r', "\\r");
        }
      }
    }
  }

  /** The four chained replacements act like one pass that escapes each
      character on its own: a backslash introduced by an earlier replacement
      is never escaped again. */
  lemma {:induction false} EscapeJsonIsPerCharacter(s: string)
    ensures EscapeJson(s) == EscapeEach(s)
  {
    if s != [] {
      assert s == [s[0]] + s[1..];
      EscapeJsonConcat([s[0]], s[1..]);
      EscapeJsonChar(s[0]);
      EscapeJsonIsPerCharacter(s[1..]);
    }
  }

  /** The escaped text holds no raw line feed or carriage return, and it is
      longer than the input by one character per escaped character. */
  lemma {:induction false} EscapeJsonShape(s: string)
    ensures forall i :: 0 <= i < |EscapeJson(s)| ==> EscapeJson(s)[i] != '\n' && EscapeJson(s)[i] != '\r'
    ensures |EscapeJson(s)| == |s| + CountEscaped(s)
  {
    EscapeEachShape(s);
    EscapeJsonIsPerCharacter(s);
  }

  lemma {:induction false} EscapeEachShape(s: string)
    ensures forall i :: 0 <= i < |EscapeEach(s)| ==> EscapeEach(s)[i] != '\n' && EscapeEach(s)[i] != '\r'
    ensures |EscapeEach(s)| == |s| + CountEscaped(s)
  {
    if s != [] {
      EscapeEachShape(s[1..]);
      var h, t := EscapeChar(s[0]), EscapeEach(s[1..]);
      assert EscapeEach(s) == h + t;
      forall i | 0 <= i < |h + t|
        ensures (h + t)[i] != '\n' && (h + t)[i] != '\r'
      {
        if i >= |h| { assert (h + t)[i] == t[i - |h|]; }
      }
    }
  }

  /** JSON string unescaping (section 7 of RFC 8259) for the two-character
      escapes; `\uXXXX` is not decoded. */
  function Unescape(s: string): string
    decreases |s|
  {
    if s == [] then []
    else if |s| >= 2 && s[0] == '\\' then UnescapePair(s[1]) + Unescape(s[2..])
    else [s[0]] + Unescape(s[1..])
  }

  function UnescapePair(c: char): string
  {
    match c
    case '\\' => "\\"
    case '"' => "\""
    case '/' => "/"
    case 'b' => [8 as char]
    case 'f' => [12 as char]
    case 'n' => "\n"
    case 'r' => "\r"
    case 't' => "\t"
    case _ => ['\\', c]
  }

  /** EscapeJson is undone by JSON unescaping. */
  lemma {:induction false} UnescapeEscapeJson(s: string)
    ensures Unescape(EscapeJson(s)) == s
  {
    EscapeJsonIsPerCharacter(s);
    UnescapeEscapeEach(s);
  }

  lemma {:induction false} UnescapeEscapeEach(s: string)
    ensures Unescape(EscapeEach(s)) == s
  {
    if s != [] {
      var c, t := s[0], EscapeEach(s[1..]);
      var e := EscapeChar(c) + t;
      assert EscapeEach(s) == e;
      UnescapeEscapeEach(s[1..]);
      if IsEscaped(c) {
        assert |e| >= 2 && e[0] == '\\' && e[2..] == t;
      } else {
        assert e[0] == c && e[1..] == t;
      }
      assert s == [c] + s[1..];
    }
  }

  /** Text without the four escaped characters passes through unchanged,
      including control characters such as tab that section 7 of RFC 8259
      requires to be escaped. */
  lemma {:induction false} EscapeJsonKeepsOtherCharacters(s: string)
    requires forall i :: 0 <= i < |s| ==> !IsEscaped(s[i])
    ensures EscapeJson(s) == s
  {
    EscapeJsonIsPerCharacter(s);
    EscapeEachKeeps(s);
  }

  lemma {:induction false} EscapeEachKeeps(s: string)
    requires forall i :: 0 <= i < |s| ==> !IsEscaped(s[i])
    ensures EscapeEach(s) == s
  {
    if s != [] {
      EscapeEachKeeps(s[1..]);
      assert s == [s[0]] + s[1..];
    }
  }

  lemma EscapeJsonLeavesTabRaw()
    ensures EscapeJson("a\tb") == "a\tb"
  {
    EscapeJsonKeepsOtherCharacters("a\tb");
  }

  // ---------------------------------------------------------------------
  // FindMatchingBrace

  /** String state after reading position i: a quote not preceded by a
      backslash toggles it. */
  function ToggleAt(str: string, i: nat, inString: bool): bool
    requires i < |str|
  {
    if str[i] == '"' && (i == 0 || str[i - 1] != '\\') then !inString else inString
  }

  /** The scanning loop of `FindMatchingBrace`, from position i with the
      given depth and string state: the position where the depth drops to
      0, or -1. */
  function ScanBraces(str: string, i: nat, depth: int, inString: bool): (r: int)
    requires i <= |str|
    ensures r == -1 || (i <= r < |str| && str[r] == '}')
    decreases |str| - i
  {
    if i == |str| then -1
    else
      var inS := ToggleAt(str, i, inString);
      if !inS && str[i] == '{' then ScanBraces(str, i + 1, depth + 1, inS)
      else if !inS && str[i] == '}' then
        if depth - 1 == 0 then i else ScanBraces(str, i + 1, depth - 1, inS)
      else ScanBraces(str, i + 1, depth, inS)
  }

  /** `FindMatchingBrace(str, open)`. A negative `open` reaches `str[open]`,
      which raises IndexOutOfRangeException. */
  function MatchingBrace(str: string, open: int): (r: Result<int>)
    ensures r.Thrown? <==> open < 0
    ensures r.Ok? && r.value != -1 ==> open < r.value < |str| && str[r.value] == '}'
    ensures r.Ok? && r.value != -1 ==> str[open] == '{'
  {
    if open >= |str| then Ok(-1)
    else if open < 0 then Thrown
    else if str[open] != '{' then Ok(-1)
    else Ok(ScanBraces(str, open + 1, 1, false))
  }

  method FindMatchingBrace(str: string, openBraceIndex: int) returns (r: Result<int>)
    ensures r == MatchingBrace(str, openBraceIndex)
  {
    if openBraceIndex >= |str| {
      return Ok(-1);
    }
    if openBraceIndex < 0 {
      return Thrown;
    }
    if str[openBraceIndex] != '{' {
      return Ok(-1);
    }
    var depth := 1;
    var inString := false;
    var i := openBraceIndex + 1;
    while i < |str|
      invariant openBraceIndex < i <= |str|
      invariant ScanBraces(str, i, depth, inString) == ScanBraces(str, openBraceIndex + 1, 1, false)
      decreases |str| - i
    {
      if str[i] == '"' && (i == 0 || str[i - 1] != '\\') {
        inString := !inString;
      }
      if !inString {
        if str[i] == '{' {
          depth := depth + 1;
        } else if str[i] == '}' {
          depth := depth - 1;
          if depth == 0 {
            return Ok(i);
          }
        }
      }
      i := i + 1;
    }
    return Ok(-1);
  }

  /** Depth and string state of the scan: the independent reference for
      FindMatchingBrace. */
  datatype ScanState = ScanState(depth: int, inString: bool)

  function StepState(str: string, i: nat, st: ScanState): ScanState
    requires i < |str|
  {
    var inS := ToggleAt(str, i, st.inString);
    if !inS && str[i] == '{' then ScanState(st.depth + 1, inS)
    else if !inS && str[i] == '}' then ScanState(st.depth - 1, inS)
    else ScanState(st.depth, inS)
  }

  /** The state once positions open+1 .. k-1 have been read. */
  function StateBefore(str: string, open: nat, k: nat): ScanState
    requires open < k <= |str|
    decreases k
  {
    if k == open + 1 then ScanState(1, false) else StepState(str, k - 1, StateBefore(str, open, k - 1))
  }

  lemma {:induction false} ScanBracesFirstReturn(str: string, open: nat, i: nat)
    requires open < i <= |str|
    requires forall k :: open < k <= i ==> StateBefore(str, open, k).depth > 0
    ensures var st := StateBefore(str, open, i);
      var r := ScanBraces(str, i, st.depth, st.inString);
      && (r == -1 ==> forall k :: open < k <= |str| ==> StateBefore(str, open, k).depth > 0)
      && (r != -1 ==> i <= r < |str| && StateBefore(str, open, r + 1).depth == 0
                      && forall k :: open < k <= r ==> StateBefore(str, open, k).depth > 0)
    decreases |str| - i
  {
    var st := StateBefore(str, open, i);
    if i < |str| {
      var next := StateBefore(str, open, i + 1);
      assert next == StepState(str, i, st);
      var inS := ToggleAt(str, i, st.inString);
      if !inS && str[i] == '}' && st.depth - 1 == 0 {
      } else {
        assert next.depth > 0;
        assert forall k :: open < k <= i + 1 ==> StateBefore(str, open, k).depth > 0;
        ScanBracesFirstReturn(str, open, i + 1);
      }
    }
  }

  /** FindMatchingBrace returns the first position after `open` at which
      the brace depth outside quoted text falls back to 0, and -1 exactly
      when the depth never does. */
  lemma MatchingBraceFirstReturn(str: string, open: nat)
    requires open < |str| && str[open] == '{'
    ensures MatchingBrace(str, open).Ok?
    ensures var r := MatchingBrace(str, open).value;
      && (r == -1 <==> forall k :: open < k <= |str| ==> StateBefore(str, open, k).depth > 0)
      && (r != -1 ==> open < r < |str| && str[r] == '}' && StateBefore(str, open, r + 1).depth == 0
                      && forall k :: open < k <= r ==> StateBefore(str, open, k).depth > 0)
  {
    ScanBracesFirstReturn(str, open, open + 1);
  }

  /** A quote right after a backslash leaves the string state alone, so the
      escaped quote in `{"a\"}"}` does not end the string. */
  lemma EscapedQuoteDoesNotToggle()
    ensures MatchingBrace("{\"a\\\"}\"}", 0) == Ok(7)
  {
  }

  // ---------------------------------------------------------------------
  // ParseFirestoreValue

  const STRING_TAG := "\"stringValue\""
  const INTEGER_TAG := "\"integerValue\""
  const DOUBLE_TAG := "\"doubleValue\""
  const BOOLEAN_TAG := "\"booleanValue\""

  /** The quoted text after `tag` and the colon that follows it, as each
      branch of `ParseFirestoreValue` extracts it: Ok(None) when the tag is
      absent or a quote is missing, Thrown when no colon follows the tag
      (`IndexOf("\"", -1)` raises ArgumentOutOfRangeException). */
  function TaggedText(v: string, tag: string): Result<Option<string>>
  {
    if !Contains(v, tag) then Ok(None)
    else
      var start := IndexFrom(v, tag, 0);
      var colonPos := IndexOfChar(v, ':', start);
      if colonPos == -1 then Thrown
      else
        var quoteStart := IndexOfChar(v, '"', colonPos);
        var quoteEnd := IndexOfChar(v, '"', quoteStart + 1);
        if quoteStart != -1 && quoteEnd != -1 then Ok(Some(v[quoteStart + 1..quoteEnd]))
        else Ok(None)
  }

  /** `ParseFirestoreValue`: stringValue, then integerValue if it parses as
      an int, then doubleValue if it parses, then booleanValue (true iff the
      text contains `true` anywhere); Ok(None) is the null result. */
  function ParseFirestoreValue(v: string): Result<Option<Field>>
  {
    match TaggedText(v, STRING_TAG)
    case Thrown => Thrown
    case Ok(Some(s)) => Ok(Some(FString(s)))
    case Ok(None) =>
      match TaggedText(v, INTEGER_TAG)
      case Thrown => Thrown
      case Ok(it) =>
        if it.Some? && ParseInt32(it.value).Some? then Ok(Some(FInt(ParseInt32(it.value).value)))
        else
          match TaggedText(v, DOUBLE_TAG)
          case Thrown => Thrown
          case Ok(dt) =>
            if dt.Some? && ParseDecimal(dt.value).Some? then Ok(Some(FDouble(ParseDecimal(dt.value).value)))
            else if Contains(v, BOOLEAN_TAG) then Ok(Some(FBool(Contains(v, "true"))))
            else Ok(None)
  }

  /** Without any of the four tags the value is null; with the boolean tag
      it is never null; an integer result is always within int range; a
      boolean result needs the tag and is true exactly when `true` occurs;
      the string branch wins whenever its tag yields quoted text. */
  lemma ParseFirestoreValueOutcomes(v: string)
    ensures (!Contains(v, STRING_TAG) && !Contains(v, INTEGER_TAG) && !Contains(v, DOUBLE_TAG)
             && !Contains(v, BOOLEAN_TAG)) ==> ParseFirestoreValue(v) == Ok(None)
    ensures Contains(v, BOOLEAN_TAG) ==> ParseFirestoreValue(v) != Ok(None)
    ensures (ParseFirestoreValue(v).Ok? && ParseFirestoreValue(v).value.Some?
             && ParseFirestoreValue(v).value.value.FInt?) ==> IsInt32(ParseFirestoreValue(v).value.value.n)
    ensures (ParseFirestoreValue(v).Ok? && ParseFirestoreValue(v).value.Some?
             && ParseFirestoreValue(v).value.value.FBool?) ==>
      Contains(v, BOOLEAN_TAG) && (ParseFirestoreValue(v).value.value.b <==> Contains(v, "true"))
    ensures (exists s :: TaggedText(v, STRING_TAG) == Ok(Some(s))) <==>
      (ParseFirestoreValue(v).Ok? && ParseFirestoreValue(v).value.Some? && ParseFirestoreValue(v).value.value.FString?)
  {
  }

  /** A tag with no colon after it raises. */
  lemma TagWithoutColonThrows()
    ensures ParseFirestoreValue(STRING_TAG) == Thrown
  {
    IndexFromAt(STRING_TAG, STRING_TAG, 0, 0);
    assert forall k :: 0 <= k < |STRING_TAG| ==> STRING_TAG[k] != ':';
  }

  // ---------------------------------------------------------------------
  // ParseFirestoreResponse

  /** A field the scanning loop reads: its name and its parsed value
      (None when ParseFirestoreValue returned null). */
  datatype RawField = RawField(name: string, value: Option<Field>)

  /** Where the next field lies from `pos`: its name, the text between the
      braces of its value, and the position after the closing brace. */
  datatype Located = Located(name: string, valueText: string, next: nat)

  /** One round of the field-scanning loop up to the parse of the value;
      None where the loop breaks. */
  function LocateField(content: string, pos: nat): (r: Option<Located>)
    requires pos <= |content|
    ensures r.Some? ==> pos < r.value.next <= |content|
  {
    if pos == |content| then None
    else
      var nameStart := IndexOfChar(content, '"', pos);
      if nameStart == -1 then None
      else
        var nameEnd := IndexOfChar(content, '"', nameStart + 1);
        if nameEnd == -1 then None
        else
          var valueStart := IndexOfChar(content, '{', nameEnd);
          if valueStart == -1 then None
          else
            var valueEnd := ScanBraces(content, valueStart + 1, 1, false);
            if valueEnd == -1 then None
            else Some(Located(content[nameStart + 1..nameEnd], content[valueStart + 1..valueEnd], valueEnd + 1))
  }

  /** The fields the scanning loop finds from `pos`, in order, before
      their values are parsed. */
  function ScanFields(content: string, pos: nat): seq<Located>
    requires pos <= |content|
    decreases |content| - pos
  {
    match LocateField(content, pos)
    case None => []
    case Some(loc) => [loc] + ScanFields(content, loc.next)
  }

  /** The located fields with their values parsed by `parse`, in order;
      Thrown as soon as one parse raises. */
  function ParseFields(ls: seq<Located>, parse: string -> Result<Option<Field>>): Result<seq<RawField>>
  {
    if ls == [] then Ok([])
    else
      match parse(ls[0].valueText)
      case Thrown => Thrown
      case Ok(v) =>
        match ParseFields(ls[1..], parse)
        case Thrown => Thrown
        case Ok(rest) => Ok([RawField(ls[0].name, v)] + rest)
  }

  lemma {:induction false} ParseFieldsSnoc(ls: seq<Located>, parse: string -> Result<Option<Field>>,
                                           seen: seq<RawField>, l: Located)
    requires ParseFields(ls, parse) == Ok(seen)
    requires parse(l.valueText).Ok?
    ensures ParseFields(ls + [l], parse) == Ok(seen + [RawField(l.name, parse(l.valueText).value)])
  {
    var x := RawField(l.name, parse(l.valueText).value);
    if ls == [] {
      assert ls + [l] == [l];
      assert [l][1..] == [];
      assert ParseFields([l][1..], parse) == Ok([]);
      assert [x] + [] == seen + [x];
    } else {
      var rest := ParseFields(ls[1..], parse).value;
      var h := RawField(ls[0].name, parse(ls[0].valueText).value);
      assert seen == [h] + rest;
      ParseFieldsSnoc(ls[1..], parse, rest, l);
      assert (ls + [l])[0] == ls[0] && (ls + [l])[1..] == ls[1..] + [l];
      assert [h] + (rest + [x]) == seen + [x];
    }
  }

  lemma {:induction false} ParseFieldsThrows(ls: seq<Located>, parse: string -> Result<Option<Field>>,
                                             seen: seq<RawField>, l: Located, tail: seq<Located>)
    requires ParseFields(ls, parse) == Ok(seen)
    requires parse(l.valueText).Thrown?
    ensures ParseFields(ls + [l] + tail, parse) == Thrown
  {
    if ls == [] {
      assert (ls + [l] + tail)[0] == l;
    } else {
      var rest := ParseFields(ls[1..], parse).value;
      ParseFieldsThrows(ls[1..], parse, rest, l, tail);
      assert (ls + [l] + tail)[0] == ls[0] && (ls + [l] + tail)[1..] == ls[1..] + [l] + tail;
    }
  }

  /** The result dictionary: each non-null field stored under its name, a
      later one overwriting an earlier one. */
  function Collect(fs: seq<RawField>): map<string, Field>
  {
    if fs == [] then map[]
    else
      var m := Collect(fs[..|fs| - 1]);
      var f := fs[|fs| - 1];
      if f.value.Some? then m[f.name := f.value.value] else m
  }

  /** A name is in the result iff some field of that name had a non-null
      value, and it maps to the value of the last such field. */
  lemma {:induction false} CollectSpec(fs: seq<RawField>, k: string)
    ensures k in Collect(fs) <==> exists i :: 0 <= i < |fs| && fs[i].name == k && fs[i].value.Some?
    ensures forall i :: 0 <= i < |fs| && fs[i].name == k && fs[i].value.Some?
              && (forall j :: i < j < |fs| && fs[j].name == k ==> fs[j].value.None?)
              ==> Collect(fs)[k] == fs[i].value.value
  {
    if fs != [] {
      var init := fs[..|fs| - 1];
      CollectSpec(init, k);
      assert forall i :: 0 <= i < |init| ==> init[i] == fs[i];
    }
  }

  /** The dictionary read from the text between the braces of "fields",
      each value parsed by `parse`. */
  function FieldsDictionary(fieldsContent: string, parse: string -> Result<Option<Field>>): Result<map<string, Field>>
  {
    match ParseFields(ScanFields(fieldsContent, 0), parse)
    case Thrown => Thrown
    case Ok(fs) => Ok(Collect(fs))
  }

  /** The dictionary `ParseFirestoreResponse` returns for `json`. */
  function ParseResponse(json: string): Result<map<string, Field>>
  {
    ParseResponseWith(json, ParseFirestoreValue)
  }

  /** The same steps with the value parser as a parameter. */
  function ParseResponseWith(json: string, parse: string -> Result<Option<Field>>): Result<map<string, Field>>
  {
    match FieldsSpan(json)
    case Thrown => Thrown
    case Ok(None) => Ok(map[])
    case Ok(Some((fieldsStart, fieldsEnd))) => FieldsDictionary(json[fieldsStart + 1..fieldsEnd], parse)
  }

  /** Where the braces of "fields" are: the first '{' after the first
      "fields" and the brace that closes it; None when either is missing,
      Thrown when FindMatchingBrace is handed -1. */
  function FieldsSpan(json: string): (r: Result<Option<(nat, nat)>>)
    ensures r.Ok? && r.value.Some? ==> r.value.value.0 < r.value.value.1 < |json|
  {
    var fieldsIndex := IndexFrom(json, "\"fields\"", 0);
    if fieldsIndex == -1 then Ok(None)
    else
      var fieldsStart := IndexOfChar(json, '{', fieldsIndex);
      match MatchingBrace(json, fieldsStart)
      case Thrown => Thrown
      case Ok(fieldsEnd) =>
        if fieldsStart == -1 || fieldsEnd == -1 then Ok(None)
        else Ok(Some((fieldsStart, fieldsEnd)))
  }

  /** Without "fields" the result is empty; with "fields" but no '{' after
      it, FindMatchingBrace is handed -1 before the check for -1 and the
      parse raises. */
  lemma ParseResponseWithoutFields(json: string)
    ensures !Contains(json, "\"fields\"") ==> ParseResponse(json) == Ok(map[])
    ensures (Contains(json, "\"fields\"")
             && IndexOfChar(json, '{', IndexFrom(json, "\"fields\"", 0)) == -1) ==> ParseResponse(json) == Thrown
  {
  }

  lemma FieldsWithoutBraceThrows()
    ensures ParseResponse("{\"fields\":1}") == Thrown
  {
    var j := "{\"fields\":1}";
    assert MatchAt(j, "\"fields\"", 1);
    assert !MatchAt(j, "\"fields\"", 0) by { assert j[0..8][0] == '{'; }
    IndexFromAt(j, "\"fields\"", 0, 1);
    assert forall k :: 1 <= k < |j| ==> j[k] != '{';
  }

  /** The locating half of one round of the field-scanning loop. */
  method NextField(fieldsContent: string, pos: nat) returns (loc: Option<Located>)
    requires pos < |fieldsContent|
    ensures loc == LocateField(fieldsContent, pos)
  {
    var nameStart := IndexOfChar(fieldsContent, '"', pos);
    if nameStart == -1 {
      return None;
    }
    var nameEnd := IndexOfChar(fieldsContent, '"', nameStart + 1);
    if nameEnd == -1 {
      return None;
    }
    var fieldName := fieldsContent[nameStart + 1..nameEnd];
    var valueStart := IndexOfChar(fieldsContent, '{', nameEnd);
    if valueStart == -1 {
      return None;
    }
    var found := FindMatchingBrace(fieldsContent, valueStart);
    var valueEnd := found.value;
    if valueEnd == -1 {
      return None;
    }
    return Some(Located(fieldName, fieldsContent[valueStart + 1..valueEnd], valueEnd + 1));
  }

  /** One located field moves from what is left to what is done. */
  lemma ScanFieldsAdvance(content: string, pos: nat, done: seq<Located>, loc: Located)
    requires pos <= |content| && ScanFields(content, 0) == done + ScanFields(content, pos)
    requires LocateField(content, pos) == Some(loc)
    ensures ScanFields(content, 0) == (done + [loc]) + ScanFields(content, loc.next)
  {
    assert done + ([loc] + ScanFields(content, loc.next)) == (done + [loc]) + ScanFields(content, loc.next);
  }

  /** Where no field is found, all fields were done. */
  lemma ScanFieldsFinish(content: string, pos: nat, done: seq<Located>)
    requires pos <= |content| && ScanFields(content, 0) == done + ScanFields(content, pos)
    requires LocateField(content, pos) == None
    ensures ScanFields(content, 0) == done
  {
    assert done + [] == done;
  }

  /** The result dictionary grows by the last field, or not at all when
      its value is null. */
  lemma CollectSnoc(seen: seq<RawField>, f: RawField)
    ensures Collect(seen + [f]) == if f.value.Some? then Collect(seen)[f.name := f.value.value] else Collect(seen)
  {
    assert (seen + [f])[..|seen + [f]| - 1] == seen;
  }

  /** One round of the field loop: the located field is done, and its
      value either raises for the whole dictionary or is parsed. */
  lemma FieldStep(content: string, parse: string -> Result<Option<Field>>, pos: nat,
                  done: seq<Located>, seen: seq<RawField>, loc: Located)
    requires pos <= |content| && ScanFields(content, 0) == done + ScanFields(content, pos)
    requires ParseFields(done, parse) == Ok(seen)
    requires LocateField(content, pos) == Some(loc)
    ensures ScanFields(content, 0) == (done + [loc]) + ScanFields(content, loc.next)
    ensures parse(loc.valueText).Thrown? ==> FieldsDictionary(content, parse) == Thrown
    ensures parse(loc.valueText).Ok? ==>
      ParseFields(done + [loc], parse) == Ok(seen + [RawField(loc.name, parse(loc.valueText).value)])
  {
    ScanFieldsAdvance(content, pos, done, loc);
    if parse(loc.valueText).Thrown? {
      ParseFieldsThrows(done, parse, seen, loc, ScanFields(content, loc.next));
    } else {
      ParseFieldsSnoc(done, parse, seen, loc);
    }
  }

  /** Once every field is done the dictionary is the one collected. */
  lemma FieldsDone(content: string, parse: string -> Result<Option<Field>>, done: seq<Located>, seen: seq<RawField>)
    requires ScanFields(content, 0) == done && ParseFields(done, parse) == Ok(seen)
    ensures FieldsDictionary(content, parse) == Ok(Collect(seen))
  {
  }

  /** The field loop of ParseFirestoreResponse,
      over the text between the braces of "fields"; it is proved for any
      value parser and called with ParseFirestoreValue. */
  method ScanFieldsLoop(fieldsContent: string, parse: string -> Result<Option<Field>>) returns (r: Result<map<string, Field>>)
    ensures r == FieldsDictionary(fieldsContent, parse)
  {
    var result: map<string, Field> := map[];
    var pos := 0;
    ghost var done: seq<Located> := [];
    ghost var seen: seq<RawField> := [];
    assert ScanFields(fieldsContent, 0) == done + ScanFields(fieldsContent, pos);
    while pos < |fieldsContent|
      invariant 0 <= pos <= |fieldsContent|
      invariant ScanFields(fieldsContent, 0) == done + ScanFields(fieldsContent, pos)
      invariant ParseFields(done, parse) == Ok(seen)
      invariant result == Collect(seen)
      decreases |fieldsContent| - pos
    {
      var next := NextField(fieldsContent, pos);
      if next.None? {
        ScanFieldsFinish(fieldsContent, pos, done);
        break;
      }
      var loc := next.value;
      FieldStep(fieldsContent, parse, pos, done, seen, loc);
      var fieldValue := parse(loc.valueText);
      if fieldValue.Thrown? {
        return Thrown;
      }
      ghost var f := RawField(loc.name, fieldValue.value);
      CollectSnoc(seen, f);
      if fieldValue.value.Some? {
        result := result[loc.name := fieldValue.value.value];
      }
      done := done + [loc];
      seen := seen + [f];
      pos := loc.next;
    }
    if pos == |fieldsContent| {
      ScanFieldsFinish(fieldsContent, pos, done);
    }
    FieldsDone(fieldsContent, parse, done, seen);
    return Ok(result);
  }

  /** `ParseFirestoreResponse`. */
  method ParseFirestoreResponse(json: string) returns (r: Result<map<string, Field>>)
    ensures r == ParseResponse(json)
  {
    r := ParseResponseLoop(json, ParseFirestoreValue);
  }

  /** Its steps, proved for any value parser. */
  method ParseResponseLoop(json: string, parse: string -> Result<Option<Field>>) returns (r: Result<map<string, Field>>)
    ensures r == ParseResponseWith(json, parse)
  {
    var span := FindFieldsSpan(json);
    match span
    case Thrown => return Thrown;
    case Ok(None) => return Ok(map[]);
    case Ok(Some((fieldsStart, fieldsEnd))) =>
      r := ScanFieldsLoop(json[fieldsStart + 1..fieldsEnd], parse);
  }

  /** The searches for the "fields" section. */
  method FindFieldsSpan(json: string) returns (r: Result<Option<(nat, nat)>>)
    ensures r == FieldsSpan(json)
  {
    var fieldsIndex := IndexFrom(json, "\"fields\"", 0);
    if fieldsIndex == -1 {
      return Ok(None);
    }
    var fieldsStart := IndexOfChar(json, '{', fieldsIndex);
    var found := FindMatchingBrace(json, fieldsStart);
    if found.Thrown? {
      return Thrown;
    }
    var fieldsEnd := found.value;
    if fieldsStart == -1 || fieldsEnd == -1 {
      return Ok(None);
    }
    return Ok(Some((fieldsStart, fieldsEnd)));
  }
}
