/**
  The body `SetDocument` writes, read back by `ParseFirestoreResponse`:
  for documents whose values are strings, 32-bit integers and booleans,
  and whose keys and strings need no escaping, parsing the body gives
  back every field with its value.
 */
module FirestoreRoundTrip {
  import opened Wrappers
  import opened Numbers
  import opened Strings
  import opened FirestoreCodec
  import opened FirestoreClient

  // ---------------------------------------------------------------------
  // The documents the round trip covers

  /** Text `EscapeJson` leaves alone. */
  predicate Plain(s: string)
  {
    forall i :: 0 <= i < |s| ==> !IsEscaped(s[i])
  }

  /** A value whose JSON the parser reads back as the same kind. */
  predicate SupportedValue(v: Value)
  {
    match v
    case VString(s) => Plain(s)
    case VInteger(n) => IsInt32(n)
    case VBool(_) => true
    case _ => false
  }

  predicate Supported(es: Entries)
  {
    forall i :: 0 <= i < |es| ==> Plain(es[i].0) && SupportedValue(es[i].1)
  }

  /** The field the parser is expected to return for a supported value. */
  function Expected(v: Value): Field
    requires SupportedValue(v)
  {
    match v
    case VString(s) => FString(s)
    case VInteger(n) => FInt(n)
    case VBool(b) => FBool(b)
  }

  function ExpectedFields(es: Entries): (fs: seq<RawField>)
    requires Supported(es)
    ensures |fs| == |es|
    ensures forall i :: 0 <= i < |es| ==> fs[i] == RawField(es[i].0, Some(Expected(es[i].1)))
  {
    if es == [] then [] else [RawField(es[0].0, Some(Expected(es[0].1)))] + ExpectedFields(es[1..])
  }

  // ---------------------------------------------------------------------
  // Characters

  predicate NoChar(s: string, c: char)
  {
    forall i :: 0 <= i < |s| ==> s[i] != c
  }

  /** No quote, backslash or brace: text the brace scanner passes over. */
  predicate Bare(s: string)
  {
    NoChar(s, '"') && NoChar(s, '\\') && NoChar(s, '{') && NoChar(s, '}')
  }

  /** No quote or backslash: text that may sit between quotes. */
  predicate Text(s: string)
  {
    NoChar(s, '"') && NoChar(s, '\\')
  }

  function Quoted(s: string): string
  {
    "\"" + s + "\""
  }

  lemma NoCharConcat(a: string, b: string, c: char)
    ensures NoChar(a + b, c) <==> NoChar(a, c) && NoChar(b, c)
  {
    if NoChar(a + b, c) {
      assert forall i :: 0 <= i < |a| ==> a[i] == (a + b)[i];
      assert forall i :: 0 <= i < |b| ==> b[i] == (a + b)[|a| + i];
    }
  }

  /** The digits and sign of a number are bare text. */
  lemma IntToStringBare(n: int)
    ensures Bare(IntToString(n))
    ensures forall c :: !IsDigit(c) && c != '-' ==> NoChar(IntToString(n), c)
  {
  }

  /** A character missing from a name and its value is missing from the
      `"name":value` text. */
  lemma NoCharTagged(name: string, rest: string, c: char)
    requires c != '"' && c != ':' && NoChar(name, c) && NoChar(rest, c)
    ensures NoChar(Quoted(name) + ":" + rest, c)
  {
    NoCharConcat("\"", name, c);
    NoCharConcat("\"" + name, "\"", c);
    NoCharConcat(Quoted(name), ":", c);
    NoCharConcat(Quoted(name) + ":", rest, c);
  }

  // ---------------------------------------------------------------------
  // The brace scanner over text without backslashes

  /** What the scanning loop does with one character not preceded by a
      backslash. */
  function Step(c: char, st: ScanState): ScanState
  {
    var inS := if c == '"' then !st.inString else st.inString;
    if !inS && c == '{' then ScanState(st.depth + 1, inS)
    else if !inS && c == '}' then ScanState(st.depth - 1, inS)
    else ScanState(st.depth, inS)
  }

  /** The state after scanning all of w, or None when the depth reaches 0
      inside it (where the scanner would stop). */
  function Scan(w: string, st: ScanState): Option<ScanState>
    decreases |w|
  {
    if w == [] then Some(st)
    else
      var n := Step(w[0], st);
      if n.depth < 1 then None else Scan(w[1..], n)
  }

  /** ScanBraces passes over a copy of w in which no character follows a
      backslash, reaching the state Scan computes. */
  lemma {:induction false} ScanThrough(str: string, i: nat, w: string, st: ScanState)
    requires i + |w| <= |str| && str[i..i + |w|] == w
    requires NoChar(w, '\\') && (i > 0 ==> str[i - 1] != '\\')
    requires Scan(w, st).Some?
    ensures ScanBraces(str, i, st.depth, st.inString)
         == ScanBraces(str, i + |w|, Scan(w, st).value.depth, Scan(w, st).value.inString)
    decreases |w|
  {
    if w != [] {
      assert str[i] == w[0];
      var n := Step(w[0], st);
      ScanBracesOne(str, i, st);
      assert str[i + 1..i + 1 + |w[1..]|] == w[1..];
      ScanThrough(str, i + 1, w[1..], n);
    }
  }

  /** One character of ScanBraces that keeps the depth positive. */
  lemma ScanBracesOne(str: string, i: nat, st: ScanState)
    requires i < |str| && (i > 0 ==> str[i - 1] != '\\') && Step(str[i], st).depth >= 1
    ensures ScanBraces(str, i, st.depth, st.inString)
         == ScanBraces(str, i + 1, Step(str[i], st).depth, Step(str[i], st).inString)
  {
    assert ToggleAt(str, i, st.inString) == Step(str[i], st).inString;
  }

  lemma {:induction false} ScanConcat(a: string, b: string, st: ScanState)
    ensures Scan(a + b, st) == if Scan(a, st).None? then None else Scan(b, Scan(a, st).value)
    decreases |a|
  {
    if a == [] {
      assert a + b == b;
    } else {
      assert (a + b)[0] == a[0] && (a + b)[1..] == a[1..] + b;
      ScanConcat(a[1..], b, Step(a[0], st));
    }
  }

  lemma {:induction false} ScanBare(w: string, d: int)
    requires Bare(w) && d >= 1
    ensures Scan(w, ScanState(d, false)) == Some(ScanState(d, false))
    decreases |w|
  {
    if w != [] {
      ScanBare(w[1..], d);
    }
  }

  lemma {:induction false} ScanText(w: string, d: int)
    requires Text(w) && d >= 1
    ensures Scan(w, ScanState(d, true)) == Some(ScanState(d, true))
    decreases |w|
  {
    if w != [] {
      ScanText(w[1..], d);
    }
  }

  lemma ScanQuoted(w: string, d: int)
    requires Text(w) && d >= 1
    ensures Scan(Quoted(w), ScanState(d, false)) == Some(ScanState(d, false))
  {
    ScanConcat("\"", w, ScanState(d, false));
    ScanText(w, d);
    ScanConcat("\"" + w, "\"", ScanState(d, false));
  }

  /** `"name":rest` scans like rest. */
  lemma ScanTagged(name: string, rest: string, d: int)
    requires Text(name) && d >= 1
    ensures Scan(Quoted(name) + ":" + rest, ScanState(d, false)) == Scan(rest, ScanState(d, false))
  {
    ScanQuoted(name, d);
    ScanConcat(Quoted(name), ":", ScanState(d, false));
    ScanConcat(Quoted(name) + ":", rest, ScanState(d, false));
  }

  // ---------------------------------------------------------------------
  // The shape of the body

  function BoolText(b: bool): string
  {
    if b then "true" else "false"
  }

  /** The text between the braces of a value's JSON object. */
  function Inner(v: Value): string
    requires SupportedValue(v)
  {
    match v
    case VString(s) => Quoted("stringValue") + ":" + Quoted(s)
    case VInteger(n) => IntegerInner(n)
    case VBool(b) => BoolInner(b)
  }

  function IntegerInner(n: int): string
  {
    Quoted("integerValue") + ":" + Quoted(IntToString(n))
  }

  function BoolInner(b: bool): string
  {
    Quoted("booleanValue") + ":" + BoolText(b)
  }

  function EntryText(e: (string, Value)): string
    requires SupportedValue(e.1)
  {
    TaggedBraced(e.0, Inner(e.1))
  }

  /** `"k":{I}`. */
  function TaggedBraced(k: string, I: string): string
  {
    Quoted(k) + ":" + ("{" + I + "}")
  }

  /** `{"tag":"text"}` is the tagged quoted text between braces. */
  lemma QuotedObject(lit: string, name: string, s: string)
    requires lit == "{" + Quoted(name) + ":" + "\""
    ensures lit + s + "\"}" == "{" + (Quoted(name) + ":" + Quoted(s)) + "}"
  {
  }

  /** `{"tag":text}` is the tagged text between braces. */
  lemma BareObject(lit: string, name: string, s: string)
    requires lit == "{" + Quoted(name) + ":"
    ensures lit + s + "}" == "{" + (Quoted(name) + ":" + s) + "}"
  {
  }

  lemma EncodeEntryShape(e: (string, Value))
    requires Plain(e.0) && SupportedValue(e.1)
    ensures EncodeEntry(e) == Some(EntryText(e))
  {
    EncodeValueShape(e.1);
    var x := "{" + Inner(e.1) + "}";
    assert "\"" + e.0 + "\":" + x == Quoted(e.0) + ":" + x;
  }

  /** SetDocument renders a supported value as its inner text in braces. */
  lemma EncodeValueShape(v: Value)
    requires SupportedValue(v)
    ensures EncodeValue(v) == Some("{" + Inner(v) + "}")
  {
    match v
    case VString(s) => EncodeStringShape(s);
    case VInteger(n) => EncodeIntegerShape(n);
    case VBool(b) => EncodeBoolShape(b);
  }

  lemma EncodeStringShape(s: string)
    requires Plain(s)
    ensures EncodeValue(VString(s)) == Some("{" + (Quoted("stringValue") + ":" + Quoted(s)) + "}")
  {
    EscapeJsonKeepsOtherCharacters(s);
    QuotedObject("{\"stringValue\":\"", "stringValue", s);
  }

  lemma EncodeIntegerShape(n: int)
    ensures EncodeValue(VInteger(n)) == Some("{" + IntegerInner(n) + "}")
  {
    QuotedObject("{\"integerValue\":\"", "integerValue", IntToString(n));
  }

  lemma EncodeBoolShape(b: bool)
    ensures EncodeValue(VBool(b)) == Some("{" + BoolInner(b) + "}")
  {
    BareObject("{\"booleanValue\":", "booleanValue", BoolText(b));
  }

  /** The entries' texts joined with commas. */
  function JoinedText(es: Entries): string
    requires Supported(es)
  {
    if es == [] then ""
    else if |es| == 1 then EntryText(es[0])
    else EntryText(es[0]) + "," + JoinedText(es[1..])
  }

  lemma {:induction false} JoinEntriesIsJoinedText(es: Entries)
    requires Supported(es)
    ensures JoinEntries(es) == Ok(JoinedText(es))
  {
    if es != [] {
      EncodeEntryShape(es[0]);
      if |es| > 1 {
        JoinEntriesIsJoinedText(es[1..]);
      }
    }
  }

  lemma ScanInner(v: Value, d: int)
    requires SupportedValue(v) && d >= 1
    ensures Scan(Inner(v), ScanState(d, false)) == Some(ScanState(d, false))
    ensures NoChar(Inner(v), '\\')
  {
    match v
    case VString(s) => ScanTaggedQuoted("stringValue", s, d);
    case VInteger(n) =>
      IntToStringBare(n);
      ScanTaggedQuoted("integerValue", IntToString(n), d);
    case VBool(b) =>
      ScanTagged("booleanValue", BoolText(b), d);
      ScanBare(BoolText(b), d);
      NoCharTagged("booleanValue", BoolText(b), '\\');
  }

  /** `"name":"s"` is balanced and free of backslashes. */
  lemma ScanTaggedQuoted(name: string, s: string, d: int)
    requires Text(name) && Text(s) && NoChar(name, '\\') && NoChar(s, '\\') && d >= 1
    ensures Scan(Quoted(name) + ":" + Quoted(s), ScanState(d, false)) == Some(ScanState(d, false))
    ensures NoChar(Quoted(name) + ":" + Quoted(s), '\\')
  {
    ScanTagged(name, Quoted(s), d);
    ScanQuoted(s, d);
    NoCharConcat("\"", s, '\\');
    NoCharConcat("\"" + s, "\"", '\\');
    NoCharTagged(name, Quoted(s), '\\');
  }

  /** A balanced text between braces closes what it opens. */
  lemma ScanBraced(w: string, d: int)
    requires d >= 1 && Scan(w, ScanState(d + 1, false)) == Some(ScanState(d + 1, false)) && NoChar(w, '\\')
    ensures Scan("{" + w + "}", ScanState(d, false)) == Some(ScanState(d, false))
    ensures NoChar("{" + w + "}", '\\')
  {
    ScanOne('{', ScanState(d, false));
    ScanOne('}', ScanState(d + 1, false));
    ScanConcat("{", w, ScanState(d, false));
    ScanConcat("{" + w, "}", ScanState(d, false));
    NoCharConcat("{", w, '\\');
    NoCharConcat("{" + w, "}", '\\');
  }

  /** Scanning one character is one step. */
  lemma ScanOne(c: char, st: ScanState)
    ensures Scan([c], st) == if Step(c, st).depth < 1 then None else Some(Step(c, st))
  {
    assert [c][1..] == [];
  }

  lemma ScanEntry(e: (string, Value), d: int)
    requires Plain(e.0) && SupportedValue(e.1) && d >= 1
    ensures Scan(EntryText(e), ScanState(d, false)) == Some(ScanState(d, false))
    ensures NoChar(EntryText(e), '\\')
  {
    var o := "{" + Inner(e.1) + "}";
    ScanInner(e.1, d + 1);
    ScanBraced(Inner(e.1), d);
    ScanTagged(e.0, o, d);
    NoCharTagged(e.0, o, '\\');
  }

  lemma {:induction false} ScanJoin(es: Entries, d: int)
    requires Supported(es) && d >= 1
    ensures Scan(JoinedText(es), ScanState(d, false)) == Some(ScanState(d, false))
    ensures NoChar(JoinedText(es), '\\')
    decreases |es|
  {
    if |es| == 1 {
      ScanEntry(es[0], d);
    } else if |es| > 1 {
      var h := EntryText(es[0]);
      var t := JoinedText(es[1..]);
      ScanEntry(es[0], d);
      ScanJoin(es[1..], d);
      ScanConcat(h, ",", ScanState(d, false));
      ScanConcat(h + ",", t, ScanState(d, false));
      NoCharConcat(h, ",", '\\');
      NoCharConcat(h + ",", t, '\\');
    }
  }

  // ---------------------------------------------------------------------
  // Reading a value back

  /** The quoted text after a tag is found when the tag opens the value. */
  lemma TaggedTextAt(name: string, s: string)
    requires NoChar(name, '"') && NoChar(name, ':') && NoChar(s, '"')
    ensures TaggedText(Quoted(name) + ":" + Quoted(s), Quoted(name)) == Ok(Some(s))
  {
    var tag := Quoted(name);
    var v := tag + ":" + Quoted(s);
    var t := |tag|;
    assert v[..t] == tag;
    IndexFromAt(v, tag, 0, 0);
    NoCharConcat("\"", name, ':');
    NoCharConcat("\"" + name, "\"", ':');
    assert forall j :: 0 <= j < t ==> v[j] == tag[j];
    assert v[t] == ':' && v[t + 1] == '"';
    assert IndexOfChar(v, ':', 0) == t;
    assert IndexOfChar(v, '"', t) == t + 1;
    assert forall j :: t + 2 <= j < t + 2 + |s| ==> v[j] == s[j - t - 2];
    assert v[t + 2 + |s|] == '"';
    assert IndexOfChar(v, '"', t + 2) == t + 2 + |s|;
    assert v[t + 2..t + 2 + |s|] == s;
  }

  /** A tag one of whose characters the value lacks is not found. */
  lemma TaggedTextAbsent(v: string, tag: string, j: nat)
    requires j < |tag| && NoChar(v, tag[j])
    ensures TaggedText(v, tag) == Ok(None)
  {
    NotContainsWithout(v, tag, j);
  }

  lemma ParseStringInner(s: string)
    requires Plain(s)
    ensures ParseFirestoreValue(Inner(VString(s))) == Ok(Some(FString(s)))
  {
    assert STRING_TAG == Quoted("stringValue");
    TaggedTextAt("stringValue", s);
  }

  /** A value whose integer text parses as an int is that int. */
  lemma ParseTaggedInteger(v: string, d: string)
    requires TaggedText(v, STRING_TAG) == Ok(None) && TaggedText(v, INTEGER_TAG) == Ok(Some(d))
    requires ParseInt32(d).Some?
    ensures ParseFirestoreValue(v) == Ok(Some(FInt(ParseInt32(d).value)))
  {
  }

  /** A value whose integer text does not parse as an int, with neither
      a double nor a boolean tag, is null. */
  lemma ParseDroppedInteger(v: string, d: string)
    requires TaggedText(v, STRING_TAG) == Ok(None) && TaggedText(v, INTEGER_TAG) == Ok(Some(d))
    requires ParseInt32(d).None?
    requires TaggedText(v, DOUBLE_TAG) == Ok(None) && !Contains(v, BOOLEAN_TAG)
    ensures ParseFirestoreValue(v) == Ok(None)
  {
  }

  /** The characters an integer value lacks. */
  lemma IntegerInnerLacks(n: int, c: char)
    requires c != '"' && c != ':' && c != '-' && !IsDigit(c) && NoChar("integerValue", c)
    ensures NoChar(IntegerInner(n), c)
  {
    var d := IntToString(n);
    IntToStringBare(n);
    NoCharConcat("\"", d, c);
    NoCharConcat("\"" + d, "\"", c);
    NoCharTagged("integerValue", Quoted(d), c);
  }

  /** An integer value has no string tag ... */
  lemma IntegerInnerNoString(n: int)
    ensures TaggedText(IntegerInner(n), STRING_TAG) == Ok(None)
  {
    IntegerInnerLacks(n, 's');
    assert STRING_TAG[1] == 's';
    TaggedTextAbsent(IntegerInner(n), STRING_TAG, 1);
  }

  /** ... and its digits under the integer tag. */
  lemma IntegerInnerTagged(n: int)
    ensures TaggedText(IntegerInner(n), INTEGER_TAG) == Ok(Some(IntToString(n)))
  {
    assert INTEGER_TAG == Quoted("integerValue");
    IntToStringBare(n);
    TaggedTextAt("integerValue", IntToString(n));
  }

  /** Nor a double or a boolean tag. */
  lemma IntegerInnerOtherTags(n: int)
    ensures TaggedText(IntegerInner(n), DOUBLE_TAG) == Ok(None)
    ensures !Contains(IntegerInner(n), BOOLEAN_TAG)
  {
    IntegerInnerLacks(n, 'd');
    assert DOUBLE_TAG[1] == 'd';
    TaggedTextAbsent(IntegerInner(n), DOUBLE_TAG, 1);
    IntegerInnerLacks(n, 'b');
    assert BOOLEAN_TAG[1] == 'b';
    NotContainsWithout(IntegerInner(n), BOOLEAN_TAG, 1);
  }

  /** An integer is read back when it fits an int; a wider one (a long)
      is read as null, since the double and boolean tags are absent. */
  lemma ParseIntegerInner(n: int)
    ensures ParseFirestoreValue(IntegerInner(n)) == if IsInt32(n) then Ok(Some(FInt(n))) else Ok(None)
  {
    IntegerInnerNoString(n);
    IntegerInnerTagged(n);
    ParseIntegerOfIntToString(n, INT32_MIN, INT32_MAX);
    if IsInt32(n) {
      ParseTaggedInteger(IntegerInner(n), IntToString(n));
    } else {
      IntegerInnerOtherTags(n);
      ParseDroppedInteger(IntegerInner(n), IntToString(n));
    }
  }

  /** Only the boolean tag present: the value is a bool, true iff the
      text contains `true`. */
  lemma ParseOnlyBoolean(v: string)
    requires TaggedText(v, STRING_TAG) == Ok(None) && TaggedText(v, INTEGER_TAG) == Ok(None)
    requires TaggedText(v, DOUBLE_TAG) == Ok(None) && Contains(v, BOOLEAN_TAG)
    ensures ParseFirestoreValue(v) == Ok(Some(FBool(Contains(v, "true"))))
  {
  }

  lemma BoolInnerContainsTrue(b: bool)
    ensures Contains(BoolInner(b), "true") <==> b
  {
    var v := BoolInner(b);
    if b {
      assert v[|v| - 4..] == "true";
      assert MatchAt(v, "true", |v| - 4);
      ContainsIff(v, "true");
    } else {
      NoCharTagged("booleanValue", BoolText(b), 't');
      NotContainsWithout(v, "true", 0);
    }
  }

  lemma ParseBoolInner(b: bool)
    ensures ParseFirestoreValue(BoolInner(b)) == Ok(Some(FBool(b)))
  {
    BoolInnerOtherTags(b);
    BoolInnerTagged(b);
    BoolInnerContainsTrue(b);
    ParseOnlyBoolean(BoolInner(b));
  }

  /** A boolean value has none of the other three tags ... */
  lemma BoolInnerOtherTags(b: bool)
    ensures TaggedText(BoolInner(b), STRING_TAG) == Ok(None)
    ensures TaggedText(BoolInner(b), INTEGER_TAG) == Ok(None)
    ensures TaggedText(BoolInner(b), DOUBLE_TAG) == Ok(None)
  {
    var v := BoolInner(b);
    var w := BoolText(b);
    NoCharTagged("booleanValue", w, 'g');
    assert STRING_TAG[6] == 'g';
    TaggedTextAbsent(v, STRING_TAG, 6);
    NoCharTagged("booleanValue", w, 'i');
    assert INTEGER_TAG[1] == 'i';
    TaggedTextAbsent(v, INTEGER_TAG, 1);
    NoCharTagged("booleanValue", w, 'd');
    assert DOUBLE_TAG[1] == 'd';
    TaggedTextAbsent(v, DOUBLE_TAG, 1);
  }

  /** ... and starts with the boolean tag. */
  lemma BoolInnerTagged(b: bool)
    ensures Contains(BoolInner(b), BOOLEAN_TAG)
  {
    var v := BoolInner(b);
    assert BOOLEAN_TAG == Quoted("booleanValue");
    assert v[..|BOOLEAN_TAG|] == BOOLEAN_TAG;
    IndexFromAt(v, BOOLEAN_TAG, 0, 0);
  }

  /** Every supported value reads back as its expected field. */
  lemma ParseInner(v: Value)
    requires SupportedValue(v)
    ensures ParseFirestoreValue(Inner(v)) == Ok(Some(Expected(v)))
  {
    match v
    case VString(s) => ParseStringInner(s);
    case VInteger(n) => ParseIntegerInner(n);
    case VBool(b) => ParseBoolInner(b);
  }

  // ---------------------------------------------------------------------
  // The field-scanning loop over the body

  /** `"k":{I}` position by position. */
  lemma TaggedBracedChars(k: string, I: string)
    ensures var E := Quoted(k) + ":" + ("{" + I + "}");
      |E| == |k| + |I| + 5 && E[0] == '"' && E[|k| + 1] == '"' && E[|k| + 2] == ':'
      && E[|k| + 3] == '{' && E[|k| + |I| + 4] == '}'
      && E[1..|k| + 1] == k && E[|k| + 4..|k| + |I| + 4] == I
  {
    var E := Quoted(k) + ":" + ("{" + I + "}");
    assert E == ("\"" + k) + ("\":{" + I + "}");
    assert E == ("\"" + k + "\":{") + (I + "}");
  }

  /** LocateField from the positions its searches find. */
  lemma LocateFieldAt(content: string, p: nat, ns: nat, ne: nat, vs: nat, ve: nat, name: string, text: string)
    requires p < |content| && IndexOfChar(content, '"', p) == ns
    requires ns + 1 <= |content| && IndexOfChar(content, '"', ns + 1) == ne
    requires ne <= |content| && IndexOfChar(content, '{', ne) == vs
    requires vs + 1 <= |content| && ScanBraces(content, vs + 1, 1, false) == ve
    requires ns + 1 <= ne && vs + 1 <= ve
    requires content[ns + 1..ne] == name && content[vs + 1..ve] == text
    ensures LocateField(content, p) == Some(Located(name, text, ve + 1))
  {
  }

  /** A slice of a copy of w is the copy of w's slice. */
  lemma SubSlice(s: string, i: nat, w: string, a: nat, b: nat)
    requires i + |w| <= |s| && s[i..i + |w|] == w && a <= b <= |w|
    ensures s[i + a..i + b] == w[a..b]
  {
    assert forall y :: i + a <= y < i + b ==> s[y] == s[i..i + |w|][y - i];
  }

  /** A character of a copy of w is w's character. */
  lemma CharOf(s: string, i: nat, w: string, a: nat)
    requires i + |w| <= |s| && s[i..i + |w|] == w && a < |w|
    ensures s[i + a] == w[a]
  {
    assert s[i + a] == s[i..i + |w|][a];
  }

  /** Where `"k":{I}` placed at q puts its parts. */
  lemma TaggedBracedAt(content: string, q: nat, k: string, I: string)
    requires q + |k| + |I| + 5 <= |content|
    requires content[q..q + |k| + |I| + 5] == Quoted(k) + ":" + ("{" + I + "}")
    ensures content[q] == '"' && content[q + |k| + 1] == '"' && content[q + |k| + 2] == ':'
    ensures content[q + |k| + 3] == '{' && content[q + |k| + |I| + 4] == '}'
    ensures content[q + 1..q + |k| + 1] == k && content[q + |k| + 4..q + |k| + |I| + 4] == I
  {
    var E := Quoted(k) + ":" + ("{" + I + "}");
    TaggedBracedChars(k, I);
    CharOf(content, q, E, 0);
    CharOf(content, q, E, |k| + 1);
    CharOf(content, q, E, |k| + 2);
    CharOf(content, q, E, |k| + 3);
    CharOf(content, q, E, |k| + |I| + 4);
    SubSlice(content, q, E, 1, |k| + 1);
    SubSlice(content, q, E, |k| + 4, |k| + |I| + 4);
  }

  /** The scan from just inside the value's `{` stops at the `}` closing
      a balanced I. */
  lemma ValueEnd(content: string, q: nat, k: string, I: string)
    requires NoChar(I, '\\') && Scan(I, ScanState(1, false)) == Some(ScanState(1, false))
    requires q + |k| + |I| + 5 <= |content|
    requires content[q + |k| + 3] == '{' && content[q + |k| + |I| + 4] == '}'
    requires content[q + |k| + 4..q + |k| + |I| + 4] == I
    ensures ScanBraces(content, q + |k| + 4, 1, false) == q + |k| + |I| + 4
  {
    ScanThrough(content, q + |k| + 4, I, ScanState(1, false));
  }

  /** The three searches of one round find the name's quotes and the
      value's opening brace. */
  lemma NameAndValueStart(content: string, p: nat, q: nat, k: string)
    requires NoChar(k, '"')
    requires p <= q && q + |k| + 4 <= |content|
    requires content[q] == '"' && content[q + |k| + 1] == '"' && content[q + |k| + 2] == ':'
    requires content[q + |k| + 3] == '{'
    requires content[q + 1..q + |k| + 1] == k
    requires forall j :: p <= j < q ==> content[j] != '"'
    ensures IndexOfChar(content, '"', p) == q
    ensures IndexOfChar(content, '"', q + 1) == q + |k| + 1
    ensures IndexOfChar(content, '{', q + |k| + 1) == q + |k| + 3
  {
    var nk := q + |k|;
    assert forall j :: q + 1 <= j < nk + 1 ==> content[j] != '"' by {
      forall j | q + 1 <= j < nk + 1 ensures content[j] != '"' {
        assert content[j] == content[q + 1..nk + 1][j - q - 1];
      }
    }
  }

  /** One round of the loop over `"k":{I}` at q, reached from p across
      characters that are not quotes. */
  lemma LocateTagged(content: string, p: nat, q: nat, k: string, I: string)
    requires NoChar(k, '"') && NoChar(I, '\\') && Scan(I, ScanState(1, false)) == Some(ScanState(1, false))
    requires p <= q && q + |k| + |I| + 5 <= |content|
    requires content[q] == '"' && content[q + |k| + 1] == '"' && content[q + |k| + 2] == ':'
    requires content[q + |k| + 3] == '{' && content[q + |k| + |I| + 4] == '}'
    requires content[q + 1..q + |k| + 1] == k && content[q + |k| + 4..q + |k| + |I| + 4] == I
    requires forall j :: p <= j < q ==> content[j] != '"'
    ensures LocateField(content, p) == Some(Located(k, I, q + |k| + |I| + 5))
  {
    NameAndValueStart(content, p, q, k);
    ValueEnd(content, q, k, I);
    LocateFieldAt(content, p, q, q + |k| + 1, q + |k| + 3, q + |k| + |I| + 4, k, I);
  }

  /** Where an entry's text placed at q puts its parts. */
  lemma EntryAt(content: string, q: nat, k: string, I: string, rest: string)
    requires q <= |content|
    requires content[q..] == TaggedBraced(k, I) + rest
    ensures |TaggedBraced(k, I)| == |k| + |I| + 5 && q + |k| + |I| + 5 <= |content|
    ensures content[q] == '"' && content[q + |k| + 1] == '"' && content[q + |k| + 2] == ':'
    ensures content[q + |k| + 3] == '{' && content[q + |k| + |I| + 4] == '}'
    ensures content[q + 1..q + |k| + 1] == k && content[q + |k| + 4..q + |k| + |I| + 4] == I
    ensures content[q + |k| + |I| + 5..] == rest
  {
    var E := TaggedBraced(k, I);
    TaggedBracedChars(k, I);
    assert content[q..q + |E|] == E by {
      assert content[q..][..|E|] == E;
    }
    assert content[q + |E|..] == rest by {
      assert content[q..][|E|..] == rest;
    }
    TaggedBracedAt(content, q, k, I);
  }

  /** One round of the loop over an entry placed at q, reached from p
      across characters that are not quotes. */
  /** One round of the loop, on to the next, over `"k":{I}` at q. */
  lemma StepTagged(content: string, p: nat, q: nat, k: string, I: string, l: Located)
    requires NoChar(k, '"') && NoChar(I, '\\') && Scan(I, ScanState(1, false)) == Some(ScanState(1, false))
    requires p <= q && q + |k| + |I| + 5 <= |content|
    requires content[q] == '"' && content[q + |k| + 1] == '"' && content[q + |k| + 2] == ':'
    requires content[q + |k| + 3] == '{' && content[q + |k| + |I| + 4] == '}'
    requires content[q + 1..q + |k| + 1] == k && content[q + |k| + 4..q + |k| + |I| + 4] == I
    requires forall j :: p <= j < q ==> content[j] != '"'
    requires l == Located(k, I, q + |k| + |I| + 5)
    ensures l.next <= |content| && ScanFields(content, p) == [l] + ScanFields(content, l.next)
  {
    LocateTagged(content, p, q, k, I);
    ScanFieldsStep(content, p, l);
  }

  lemma ScanFieldsStep(content: string, p: nat, l: Located)
    requires p <= |content| && LocateField(content, p) == Some(l)
    ensures ScanFields(content, p) == [l] + ScanFields(content, l.next)
  {
  }

  lemma ParseFieldsCons(l: Located, ls: seq<Located>, v: Option<Field>, rs: seq<RawField>)
    requires ParseFirestoreValue(l.valueText) == Ok(v) && ParseFields(ls, ParseFirestoreValue) == Ok(rs)
    ensures ParseFields([l] + ls, ParseFirestoreValue) == Ok([RawField(l.name, v)] + rs)
  {
    assert ([l] + ls)[0] == l && ([l] + ls)[1..] == ls;
  }

  lemma ScanFieldsAtEnd(content: string)
    ensures ScanFields(content, |content|) == []
  {
  }

  /** Past an optional comma. */
  lemma PastComma(content: string, p: nat, comma: bool, w: string) returns (q: nat)
    requires p <= |content| && content[p..] == (if comma then "," else "") + w
    ensures q == (if comma then p + 1 else p) && q <= |content| && content[q..] == w
    ensures forall j :: p <= j < q ==> content[j] != '"'
  {
    q := if comma then p + 1 else p;
    if comma {
      assert content[p..][0] == content[p];
      assert content[p..][1..] == content[q..];
    }
  }

  /** What follows the first entry's text in the joined text. */
  function JoinedRest(es: Entries): string
    requires Supported(es) && es != []
  {
    if |es| == 1 then "" else "," + JoinedText(es[1..])
  }

  lemma JoinedTextCons(es: Entries)
    requires Supported(es) && es != []
    ensures JoinedText(es) == EntryText(es[0]) + JoinedRest(es)
  {
  }

  /** Where an entry after an optional comma lies, and what follows it. */
  lemma FirstEntryAt(content: string, p: nat, comma: bool, k: string, I: string, rest: string) returns (q: nat)
    requires p <= |content|
    requires content[p..] == (if comma then "," else "") + (TaggedBraced(k, I) + rest)
    ensures p <= q && q + |k| + |I| + 5 <= |content|
    ensures content[q] == '"' && content[q + |k| + 1] == '"' && content[q + |k| + 2] == ':'
    ensures content[q + |k| + 3] == '{' && content[q + |k| + |I| + 4] == '}'
    ensures content[q + 1..q + |k| + 1] == k && content[q + |k| + 4..q + |k| + |I| + 4] == I
    ensures content[q + |k| + |I| + 5..] == rest
    ensures forall j :: p <= j < q ==> content[j] != '"'
  {
    q := PastComma(content, p, comma, TaggedBraced(k, I) + rest);
    EntryAt(content, q, k, I, rest);
  }

  /** One round of the loop over `"k":{I}` after an optional comma: it
      locates the entry and stops where what follows it begins. */
  lemma FirstEntryStep(content: string, p: nat, comma: bool, k: string, I: string, rest: string) returns (next: nat)
    requires NoChar(k, '"') && NoChar(I, '\\') && Scan(I, ScanState(1, false)) == Some(ScanState(1, false))
    requires p <= |content|
    requires content[p..] == (if comma then "," else "") + (TaggedBraced(k, I) + rest)
    ensures next <= |content| && content[next..] == rest
    ensures ScanFields(content, p) == [Located(k, I, next)] + ScanFields(content, next)
  {
    var q := FirstEntryAt(content, p, comma, k, I, rest);
    next := q + |k| + |I| + 5;
    StepTagged(content, p, q, k, I, Located(k, I, next));
  }

  /** The same round over an entry of a supported document, whose value
      text parses back to the expected field. */
  lemma EntryStep(content: string, p: nat, comma: bool, e: (string, Value), rest: string) returns (next: nat)
    requires Plain(e.0) && SupportedValue(e.1) && p <= |content|
    requires content[p..] == (if comma then "," else "") + (EntryText(e) + rest)
    ensures next <= |content| && content[next..] == rest
    ensures ScanFields(content, p) == [Located(e.0, Inner(e.1), next)] + ScanFields(content, next)
    ensures ParseFirestoreValue(Inner(e.1)) == Ok(Some(Expected(e.1)))
  {
    ScanInner(e.1, 1);
    assert NoChar(e.0, '"');
    ParseInner(e.1);
    next := FirstEntryStep(content, p, comma, e.0, Inner(e.1), rest);
  }

  /** The loop over a comma (when `comma`) followed by the joined entries
      reads every entry back, in order. */
  lemma {:induction false} ScanJoinedFields(content: string, p: nat, es: Entries, comma: bool)
    requires Supported(es) && p <= |content| && (comma ==> es != [])
    requires content[p..] == (if comma then "," else "") + JoinedText(es)
    ensures ParseFields(ScanFields(content, p), ParseFirestoreValue) == Ok(ExpectedFields(es))
    decreases |es|
  {
    if es == [] {
      assert p == |content|;
      ScanFieldsAtEnd(content);
    } else {
      var e := es[0];
      JoinedTextCons(es);
      var next := EntryStep(content, p, comma, e, JoinedRest(es));
      var loc := Located(e.0, Inner(e.1), next);
      var tail := ScanFields(content, next);
      var rs := ExpectedFields(es[1..]);
      assert ExpectedFields(es) == [RawField(e.0, Some(Expected(e.1)))] + rs;
      if |es| == 1 {
        assert next == |content|;
        ScanFieldsAtEnd(content);
        assert rs == [];
      } else {
        ScanJoinedFields(content, next, es[1..], true);
      }
      ParseFieldsCons(loc, tail, Some(Expected(e.1)), rs);
    }
  }

  /** Where BODY_OPEN puts "fields" and the brace that opens its object. */
  lemma BodyOpenFacts(j: string)
    ensures MatchAt(BODY_OPEN + j + BODY_CLOSE, "\"fields\"", 1)
    ensures !MatchAt(BODY_OPEN + j + BODY_CLOSE, "\"fields\"", 0)
    ensures (BODY_OPEN + j + BODY_CLOSE)[10] == '{'
    ensures forall x :: 1 <= x < 10 ==> (BODY_OPEN + j + BODY_CLOSE)[x] != '{'
    ensures (BODY_OPEN + j + BODY_CLOSE)[11 + |j|] == '}'
    ensures (BODY_OPEN + j + BODY_CLOSE)[11..11 + |j|] == j
  {
    var b := BODY_OPEN + j + BODY_CLOSE;
    assert |BODY_OPEN| == 11 && BODY_OPEN[10] == '{';
    assert b[1..9] == BODY_OPEN[1..9] == "\"fields\"";
    assert forall x :: 0 <= x < 11 ==> b[x] == BODY_OPEN[x];
    assert NoChar(BODY_OPEN[1..10], '{');
    assert b[0..8][0] == b[0] == '{';
    assert forall x :: 1 <= x < 10 ==> BODY_OPEN[x] == BODY_OPEN[1..10][x - 1];
  }

  /** A body whose fields text scans as balanced is read through the
      dictionary of that text. */
  lemma ParseBody(j: string)
    requires NoChar(j, '\\') && Scan(j, ScanState(1, false)) == Some(ScanState(1, false))
    ensures ParseResponse(BODY_OPEN + j + BODY_CLOSE) == FieldsDictionary(j, ParseFirestoreValue)
  {
    var b := BODY_OPEN + j + BODY_CLOSE;
    BodyOpenFacts(j);
    IndexFromAt(b, "\"fields\"", 0, 1);
    assert IndexOfChar(b, '{', 1) == 10;
    ScanThrough(b, 11, j, ScanState(1, false));
    assert MatchingBrace(b, 10) == Ok(11 + |j|);
  }

  /** Parsing the body SetDocument writes gives back every field of a
      supported document: the dictionary built from the expected fields in
      order, a later key overwriting an earlier one. */
  lemma DocumentBodyRoundTrip(es: Entries)
    requires Supported(es)
    ensures DocumentBody(es).Ok?
    ensures ParseResponse(DocumentBody(es).value) == Ok(Collect(ExpectedFields(es)))
  {
    JoinEntriesIsJoinedText(es);
    var j := JoinedText(es);
    ScanJoin(es, 1);
    ParseBody(j);
    assert j[0..] == j;
    ScanJoinedFields(j, 0, es, false);
  }

  /** With distinct keys: the parsed document has exactly the written keys,
      each with its written value. */
  lemma DocumentBodyRoundTripFields(es: Entries)
    requires Supported(es) && DistinctKeys(es)
    ensures DocumentBody(es).Ok?
    ensures ParseResponse(DocumentBody(es).value).Ok?
    ensures forall k ::
      (k in ParseResponse(DocumentBody(es).value).value <==> exists i :: 0 <= i < |es| && es[i].0 == k)
    ensures forall i :: 0 <= i < |es| ==> ParseResponse(DocumentBody(es).value).value[es[i].0] == Expected(es[i].1)
  {
    DocumentBodyRoundTrip(es);
    forall k
      ensures k in Collect(ExpectedFields(es)) <==> exists i :: 0 <= i < |es| && es[i].0 == k
    {
      ExpectedKey(es, k);
    }
    forall i | 0 <= i < |es|
      ensures es[i].0 in Collect(ExpectedFields(es)) && Collect(ExpectedFields(es))[es[i].0] == Expected(es[i].1)
    {
      ExpectedValue(es, i);
    }
  }

  /** The collected fields hold exactly the document's keys ... */
  lemma ExpectedKey(es: Entries, k: string)
    requires Supported(es)
    ensures k in Collect(ExpectedFields(es)) <==> exists i :: 0 <= i < |es| && es[i].0 == k
  {
    var fs := ExpectedFields(es);
    CollectSpec(fs, k);
    if exists i :: 0 <= i < |es| && es[i].0 == k {
      var i :| 0 <= i < |es| && es[i].0 == k;
      assert fs[i].name == k && fs[i].value.Some?;
    }
  }

  /** ... and, with distinct keys, each key's expected field. */
  lemma ExpectedValue(es: Entries, i: nat)
    requires Supported(es) && DistinctKeys(es) && i < |es|
    ensures es[i].0 in Collect(ExpectedFields(es)) && Collect(ExpectedFields(es))[es[i].0] == Expected(es[i].1)
  {
    var fs := ExpectedFields(es);
    CollectSpec(fs, es[i].0);
    assert fs[i].name == es[i].0 && fs[i].value.Some?;
  }
}
