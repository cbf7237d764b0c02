/**
  The request-level operations of `FirebaseRestFirestore`: the JSON body and
  URL of `SetDocument`, `GetDocument`, the document-splitting loop of
  `QueryDocuments`, and the conversions between a dictionary and the
  `FirestoreDocument` record. The HTTP exchange itself is an input: a
  request either succeeds with a response text or fails.
 */
module FirestoreClient {
  import opened Wrappers
  import opened Numbers
  import opened Strings
  import opened FirestoreCodec

  const BASE_URL := "https://firestore.googleapis.com/v1/projects"
  const PROJECT_ID := "flappy-bird-ce77c"
  const DATABASE_ID := "(default)"

  /** The document URL of SetDocument and GetDocument. */
  function DocumentUrl(collection: string, documentId: string): string
  {
    BASE_URL + "/" + PROJECT_ID + "/databases/" + DATABASE_ID + "/documents/" + collection + "/" + documentId
  }

  // ---------------------------------------------------------------------
  // SetDocument

  /** The JSON of one value; None for a null value, whose `ToString()`
      raises NullReferenceException before the request is sent. */
  function EncodeValue(v: Value): Option<string>
  {
    match v
    case VString(s) => Some("{\"stringValue\":\"" + EscapeJson(s) + "\"}")
    case VInteger(n) => Some("{\"integerValue\":\"" + IntToString(n) + "\"}")
    case VReal(t) => Some("{\"doubleValue\":\"" + t + "\"}")
    case VBool(b) => Some("{\"booleanValue\":" + (if b then "true" else "false") + "}")
    case VOther(t) => Some("{\"stringValue\":\"" + EscapeJson(t) + "\"}")
    case VNull => None
  }

  /** `"key":` followed by the value's JSON (the key is not escaped). */
  function EncodeEntry(e: (string, Value)): Option<string>
  {
    match EncodeValue(e.1)
    case None => None
    case Some(v) => Some("\"" + e.0 + "\":" + v)
  }

  /** The entries' JSON joined with commas. */
  function JoinEntries(es: Entries): Result<string>
  {
    if es == [] then Ok("")
    else
      match EncodeEntry(es[0])
      case None => Thrown
      case Some(h) =>
        if |es| == 1 then Ok(h)
        else
          match JoinEntries(es[1..])
          case Thrown => Thrown
          case Ok(t) => Ok(h + "," + t)
  }

  const BODY_OPEN := "{\"fields\":{"
  const BODY_CLOSE := "}}"

  /** The body SetDocument sends for `data`, in the dictionary's order. */
  function DocumentBody(data: Entries): Result<string>
  {
    match JoinEntries(data)
    case Thrown => Thrown
    case Ok(j) => Ok(BODY_OPEN + j + BODY_CLOSE)
  }

  /** The body is built exactly when no value is null. */
  lemma {:induction false} DocumentBodyThrowsIffNull(data: Entries)
    ensures DocumentBody(data).Thrown? <==> exists i :: 0 <= i < |data| && data[i].1.VNull?
  {
    JoinEntriesThrowsIffNull(data);
  }

  lemma {:induction false} JoinEntriesThrowsIffNull(es: Entries)
    ensures JoinEntries(es).Thrown? <==> exists i :: 0 <= i < |es| && es[i].1.VNull?
  {
    if es != [] {
      JoinEntriesThrowsIffNull(es[1..]);
      if exists i :: 1 <= i < |es| && es[i].1.VNull? {
        var i :| 1 <= i < |es| && es[i].1.VNull?;
        assert es[1..][i - 1] == es[i];
      }
      if exists i :: 0 <= i < |es| - 1 && es[1..][i].1.VNull? {
        var i :| 0 <= i < |es| - 1 && es[1..][i].1.VNull?;
        assert es[i + 1] == es[1..][i];
      }
    }
  }

  lemma {:induction false} JoinEntriesSnoc(es: Entries, e: (string, Value))
    requires JoinEntries(es).Ok? && EncodeEntry(e).Some?
    ensures JoinEntries(es + [e]) ==
      Ok(if es == [] then EncodeEntry(e).value else JoinEntries(es).value + "," + EncodeEntry(e).value)
  {
    if es == [] {
      assert es + [e] == [e];
    } else {
      assert (es + [e])[0] == es[0] && (es + [e])[1..] == es[1..] + [e];
      if |es| == 1 {
        assert es[1..] == [];
        JoinEntriesSnoc(es[1..], e);
      } else {
        JoinEntriesSnoc(es[1..], e);
        var h := EncodeEntry(es[0]).value;
        var t := JoinEntries(es[1..]).value;
        CommaAssoc(h, t, EncodeEntry(e).value);
      }
    }
  }

  /** One pass of SetDocument's loop: appending entry i (and the comma
      when another entry follows) extends the body by that entry. */
  lemma {:induction false} BodyStep(data: Entries, i: nat, json: string)
    requires i < |data| && JoinEntries(data[..i]).Ok? && EncodeEntry(data[i]).Some?
    requires i == 0 ==> json == BODY_OPEN + JoinEntries(data[..i]).value
    requires 0 < i ==> json == BODY_OPEN + JoinEntries(data[..i]).value + ","
    ensures JoinEntries(data[..i + 1]).Ok?
    ensures i + 1 < |data| ==>
      json + EncodeEntry(data[i]).value + "," == BODY_OPEN + JoinEntries(data[..i + 1]).value + ","
    ensures i + 1 == |data| ==>
      json + EncodeEntry(data[i]).value == BODY_OPEN + JoinEntries(data[..i + 1]).value
  {
    assert data[..i + 1] == data[..i] + [data[i]];
    JoinEntriesSnoc(data[..i], data[i]);
    if i == 0 {
      assert data[..i] == [];
    }
    AppendJoined(json, JoinEntries(data[..i]).value, EncodeEntry(data[i]).value, i == 0);
  }

  lemma AppendJoined(json: string, j: string, e: string, first: bool)
    requires first ==> json == BODY_OPEN + j && j == ""
    requires !first ==> json == BODY_OPEN + j + ","
    ensures json + e == BODY_OPEN + (if first then e else j + "," + e)
    ensures json + e + "," == BODY_OPEN + (if first then e else j + "," + e) + ","
  {
    if first {
      assert json == BODY_OPEN;
    }
  }

  /** A PATCH request of SetDocument. */
  datatype PatchRequest = PatchRequest(url: string, body: string)

  /** `SetDocument`: builds the body entry by entry, appending a comma
      after every entry but the last; `requestSucceeded` is the outcome of
      the PATCH request (a failed request and a caught exception both give
      false). A null value raises before anything is sent. */
  method SetDocument(collection: string, documentId: string, data: Entries, requestSucceeded: bool)
    returns (outcome: Result<bool>, sent: Option<PatchRequest>)
    ensures DocumentBody(data).Thrown? ==> outcome == Thrown && sent == None
    ensures DocumentBody(data).Ok? ==>
      outcome == Ok(requestSucceeded)
      && sent == Some(PatchRequest(DocumentUrl(collection, documentId), DocumentBody(data).value))
  {
    var url := DocumentUrl(collection, documentId);
    var json := BODY_OPEN;
    assert data[..0] == [];
    assert json == BODY_OPEN + JoinEntries(data[..0]).value;
    for i := 0 to |data|
      invariant JoinEntries(data[..i]).Ok?
      invariant (i == 0 || i == |data|) ==> json == BODY_OPEN + JoinEntries(data[..i]).value
      invariant 0 < i < |data| ==> json == BODY_OPEN + JoinEntries(data[..i]).value + ","
    {
      var entry := EncodeEntry(data[i]);
      if entry.None? {
        JoinEntriesThrowsIffNull(data);
        return Thrown, None;
      }
      BodyStep(data, i, json);
      json := json + entry.value;
      if i < |data| - 1 {
        json := json + ",";
      }
    }
    json := json + BODY_CLOSE;
    assert data[..|data|] == data;
    return Ok(requestSucceeded), Some(PatchRequest(url, json));
  }

  // ---------------------------------------------------------------------
  // GetDocument

  /** `GetDocument` once the request has completed: `response` is the text
      of a successful request (None for a failed one); a parse that raises
      is caught and gives null as well. */
  function GetDocument(response: Option<string>): (r: Option<map<string, Field>>)
    ensures r.Some? <==> response.Some? && ParseResponse(response.value).Ok?
    ensures r.Some? ==> r.value == ParseResponse(response.value).value
  {
    match response
    case None => None
    case Some(text) =>
      match ParseResponse(text)
      case Thrown => None
      case Ok(m) => Some(m)
  }

  // ---------------------------------------------------------------------
  // QueryDocuments

  const NAME_KEY := "\"name\""

  /** The backwards walk from k to the nearest '{' at or before it; -1 when
      there is none. */
  function BraceAtOrBefore(text: string, k: int): (r: int)
    requires -1 <= k < |text|
    ensures -1 <= r <= k && (r >= 0 ==> text[r] == '{')
    ensures forall j :: r < j <= k ==> text[j] != '{'
    decreases k + 1
  {
    if k < 0 then -1 else if text[k] == '{' then k else BraceAtOrBefore(text, k - 1)
  }

  /** What one round of the splitting loop finds from docIndex. */
  datatype Round =
    | NoMoreNames                                   // no "name" left: the loop ends
    | Unenclosed(nameIndex: nat)                    // no '{' before it, or that brace never closes
    | Enclosed(nameIndex: nat, docStart: nat, docEnd: nat)

  function FindRound(text: string, docIndex: nat): (r: Round)
    requires docIndex <= |text|
    ensures !r.NoMoreNames? ==> docIndex <= r.nameIndex && r.nameIndex + |NAME_KEY| <= |text|
    ensures !r.NoMoreNames? ==> MatchAt(text, NAME_KEY, r.nameIndex)
    ensures r.Enclosed? ==> r.docStart < r.nameIndex && r.docStart < r.docEnd < |text|
                            && text[r.docStart] == '{' && text[r.docEnd] == '}'
  {
    var nameIndex := IndexFrom(text, NAME_KEY, docIndex);
    if nameIndex == -1 then NoMoreNames else RoundAt(text, nameIndex)
  }

  /** The round around a "name" found at nameIndex: the nearest '{'
      before it and the brace that closes it. */
  function RoundAt(text: string, nameIndex: nat): (r: Round)
    requires nameIndex < |text|
    ensures !r.NoMoreNames? && r.nameIndex == nameIndex
    ensures r.Enclosed? ==> r.docStart < nameIndex && r.docStart < r.docEnd < |text|
                            && text[r.docStart] == '{' && text[r.docEnd] == '}'
  {
    var docStart := BraceAtOrBefore(text, nameIndex - 1);
    if docStart < 0 then Unenclosed(nameIndex)
    else
      var docEnd := ScanBraces(text, docStart + 1, 1, false);
      if docEnd == -1 then Unenclosed(nameIndex) else Enclosed(nameIndex, docStart, docEnd)
  }

  /** The docIndex of the next round as the loop is written: one past the
      name when it is skipped, one past the document's closing brace
      otherwise. */
  function NextDocIndexAsWritten(r: Round): int
    requires !r.NoMoreNames?
  {
    match r
    case Unenclosed(n) => n + 1
    case Enclosed(_, _, e) => e + 1
  }

  /** The corrected docIndex: never behind the name just found. */
  function NextDocIndex(r: Round): nat
    requires !r.NoMoreNames?
  {
    match r
    case Unenclosed(n) => n + 1
    case Enclosed(n, _, e) => if e < n then n + 1 else e + 1
  }

  /** The corrected index always moves past the name found, so the loop
      ends; it agrees with the loop as written whenever the brace found
      encloses the name, which is the case for a well-formed response. */
  lemma NextDocIndexProgress(text: string, docIndex: nat)
    requires docIndex <= |text| && !FindRound(text, docIndex).NoMoreNames?
    ensures var r := FindRound(text, docIndex);
      docIndex < NextDocIndex(r) <= |text|
      && (r.Enclosed? && r.nameIndex < r.docEnd ==> NextDocIndex(r) == NextDocIndexAsWritten(r))
  {
  }

  /** Two starting points with the same next "name" give the same round. */
  lemma SameRound(text: string, a: nat, b: nat)
    requires a <= |text| && b <= |text|
    requires IndexFrom(text, NAME_KEY, a) == IndexFrom(text, NAME_KEY, b)
    ensures FindRound(text, a) == FindRound(text, b)
  {
  }

  /** As written, the loop never ends once the nearest '{' before a
      "name" closes before that name: the round from docEnd + 1 finds
      the same name, the same brace and the same docIndex again. */
  lemma {:induction false} AsWrittenRepeats(text: string, docIndex: nat)
    requires docIndex <= |text|
    requires FindRound(text, docIndex).Enclosed?
    requires FindRound(text, docIndex).docEnd < FindRound(text, docIndex).nameIndex
    requires docIndex <= FindRound(text, docIndex).docEnd + 1
    ensures var r := FindRound(text, docIndex);
      FindRound(text, NextDocIndexAsWritten(r)) == r
      && NextDocIndexAsWritten(FindRound(text, NextDocIndexAsWritten(r))) == NextDocIndexAsWritten(r)
  {
    var r := FindRound(text, docIndex);
    var d := r.docEnd + 1;
    assert IndexFrom(text, NAME_KEY, docIndex) == r.nameIndex;
    IndexFromLater(text, NAME_KEY, docIndex, d);
    SameRound(text, docIndex, d);
  }

  /** A response on which the loop as written spins: the brace before
      "name" belongs to the empty object of field "a". */
  const STALLING_RESPONSE := "{\"a\":{},\"name\":1}"

  /** The nearest '{' at or before k. */
  lemma BraceBefore(text: string, k: int, b: nat)
    requires b <= k < |text| && text[b] == '{'
    requires forall j :: b < j <= k ==> text[j] != '{'
    ensures BraceAtOrBefore(text, k) == b
  {
  }

  /** A '}' outside a string right after the opening brace closes it. */
  lemma CloseAfterOpen(text: string, i: nat)
    requires i < |text| && text[i] == '}'
    ensures ScanBraces(text, i, 1, false) == i
  {
  }

  lemma StallingName(t: string)
    requires t == STALLING_RESPONSE
    ensures IndexFrom(t, NAME_KEY, 0) == 8
  {
    assert MatchAt(t, NAME_KEY, 8);
    forall k | 0 <= k < 8
      ensures !MatchAt(t, NAME_KEY, k)
    {
      assert t[k..k + 6][1] == t[k + 1];
      assert t[k..k + 6][2] == t[k + 2];
    }
    IndexFromAt(t, NAME_KEY, 0, 8);
  }

  /** The round found from its three searches. */
  lemma EnclosedRound(text: string, docIndex: nat, n: nat, s: nat, e: nat)
    requires docIndex <= |text| && 0 < n < |text|
    requires IndexFrom(text, NAME_KEY, docIndex) == n
    requires BraceAtOrBefore(text, n - 1) == s && s + 1 <= |text|
    requires ScanBraces(text, s + 1, 1, false) == e
    ensures FindRound(text, docIndex) == Enclosed(n, s, e)
  {
    assert RoundAt(text, n) == Enclosed(n, s, e);
  }

  lemma StallingRound(t: string)
    requires t == STALLING_RESPONSE
    ensures FindRound(t, 0) == Enclosed(8, 5, 6)
  {
    StallingName(t);
    assert t[5..8] == "{},";
    assert t[5] == t[5..8][0] && t[6] == t[5..8][1] && t[7] == t[5..8][2];
    BraceBefore(t, 7, 5);
    CloseAfterOpen(t, 6);
    EnclosedRound(t, 0, 8, 5, 6);
  }

  lemma AsWrittenStallsOnExample()
    ensures FindRound(STALLING_RESPONSE, 0) == Enclosed(8, 5, 6)
    ensures NextDocIndexAsWritten(FindRound(STALLING_RESPONSE, 7)) == 7
  {
    StallingRound(STALLING_RESPONSE);
    AsWrittenRepeats(STALLING_RESPONSE, 0);
  }

  /** The documents the corrected loop collects from docIndex on: each
      enclosing object parsed as a response, kept when it has a field;
      Thrown when one parse raises. */
  function SplitDocuments(text: string, docIndex: nat): Result<seq<map<string, Field>>>
    requires docIndex <= |text|
  {
    SplitDocumentsWith(text, docIndex, ParseResponse)
  }

  /** The corrected loop with the document parser as a parameter. */
  function SplitDocumentsWith(text: string, docIndex: nat, parse: string -> Result<map<string, Field>>): Result<seq<map<string, Field>>>
    requires docIndex <= |text|
    decreases |text| - docIndex
  {
    var r := FindRound(text, docIndex);
    if r.NoMoreNames? then Ok([])
    else
      NextDocIndexProgress(text, docIndex);
      var rest := SplitDocumentsWith(text, NextDocIndex(r), parse);
      if r.Unenclosed? then rest
      else AddDocument(parse(text[r.docStart..r.docEnd + 1]), rest)
  }

  /** A parsed document in front of the later ones: dropped when it has
      no field, and a raise on either side raises. */
  function AddDocument(doc: Result<map<string, Field>>, rest: Result<seq<map<string, Field>>>): Result<seq<map<string, Field>>>
  {
    match doc
    case Thrown => Thrown
    case Ok(d) =>
      match rest
      case Thrown => Thrown
      case Ok(ds) => Ok(if |d| > 0 then [d] + ds else ds)
  }

  /** Every document in the result has at least one field. */
  lemma {:induction false} SplitDocumentsNonEmpty(text: string, docIndex: nat)
    requires docIndex <= |text|
    ensures SplitDocuments(text, docIndex).Ok? ==>
      forall d :: d in SplitDocuments(text, docIndex).value ==> |d| > 0
    decreases |text| - docIndex
  {
    var r := FindRound(text, docIndex);
    if !r.NoMoreNames? {
      NextDocIndexProgress(text, docIndex);
      SplitDocumentsNonEmpty(text, NextDocIndex(r));
    }
  }

  /** The list `QueryDocuments` returns for the response of its request
      (None for a failed request); a parse that raises anywhere discards
      every document. */
  function QueryResult(response: Option<string>): seq<map<string, Field>>
  {
    match response
    case None => []
    case Some(text) =>
      match SplitDocuments(text, 0)
      case Thrown => []
      case Ok(ds) => ds
  }

  /** The splitting loop as written, with the document parser as a
      parameter, run for at most `fuel` rounds that find a name: None when
      it has not ended by then. A raise ends it at once. */
  function SplitAsWritten(text: string, docIndex: nat, fuel: nat, parse: string -> Result<map<string, Field>>)
    : Option<Result<seq<map<string, Field>>>>
    requires docIndex <= |text|
    decreases fuel, 1
  {
    AsWrittenFrom(text, FindRound(text, docIndex), fuel, parse)
  }

  /** The indices a round found within the text. */
  predicate RoundInText(text: string, r: Round)
  {
    match r
    case NoMoreNames => true
    case Unenclosed(n) => n < |text|
    case Enclosed(_, s, e) => s <= e < |text|
  }

  /** The loop as written once a round has been found: the next round
      starts at `NextDocIndexAsWritten`. */
  function AsWrittenFrom(text: string, r: Round, fuel: nat, parse: string -> Result<map<string, Field>>)
    : Option<Result<seq<map<string, Field>>>>
    requires RoundInText(text, r)
    decreases fuel, 0
  {
    match r
    case NoMoreNames => Some(Ok([]))
    case Unenclosed(n) =>
      if fuel == 0 then None else SplitAsWritten(text, n + 1, fuel - 1, parse)
    case Enclosed(_, s, e) =>
      if fuel == 0 then None
      else
        var doc := parse(text[s..e + 1]);
        if doc.Thrown? then Some(Thrown)
        else
          match SplitAsWritten(text, e + 1, fuel - 1, parse)
          case None => None
          case Some(rest) => Some(AddDocument(doc, rest))
  }

  /** Once a round's brace closes before its name, the round from one past
      that brace finds the same brace again, still closing before the
      name it finds. */
  lemma AsWrittenSticks(text: string, docIndex: nat, n: nat, s: nat, e: nat, next: nat)
    requires docIndex <= |text| && FindRound(text, docIndex) == Enclosed(n, s, e) && e < n
    requires next == e + 1
    ensures next <= |text|
    ensures FindRound(text, next).Enclosed?
    ensures FindRound(text, next).docStart == s && FindRound(text, next).docEnd == e
    ensures e < FindRound(text, next).nameIndex
  {
    EnclosedParts(text, docIndex, n, s, e);
    var n' := IndexFrom(text, NAME_KEY, next);
    assert MatchAt(text, NAME_KEY, n);
    assert next <= n' <= n;
    BraceBefore(text, n' - 1, s);
    EnclosedRound(text, next, n', s, e);
  }

  /** An enclosed round's brace is the nearest '{' before its name, and
      its end the brace that closes it. */
  lemma EnclosedParts(text: string, docIndex: nat, n: nat, s: nat, e: nat)
    requires docIndex <= |text| && FindRound(text, docIndex) == Enclosed(n, s, e)
    ensures n > 0 && BraceAtOrBefore(text, n - 1) == s && ScanBraces(text, s + 1, 1, false) == e
  {
    assert IndexFrom(text, NAME_KEY, docIndex) == n;
    RoundAtParts(text, n);
  }

  lemma RoundAtParts(text: string, n: nat)
    requires n < |text| && RoundAt(text, n).Enclosed?
    ensures BraceAtOrBefore(text, n - 1) == RoundAt(text, n).docStart
    ensures ScanBraces(text, RoundAt(text, n).docStart + 1, 1, false) == RoundAt(text, n).docEnd
  {
  }

  /** From such a round, unless its document's parse raises, the loop as
      written never ends. */
  lemma AsWrittenNeverEnds(text: string, docIndex: nat, fuel: nat,
                                               parse: string -> Result<map<string, Field>>)
    requires docIndex <= |text| && FindRound(text, docIndex).Enclosed?
    requires FindRound(text, docIndex).docEnd < FindRound(text, docIndex).nameIndex
    requires parse(text[FindRound(text, docIndex).docStart..FindRound(text, docIndex).docEnd + 1]).Ok?
    ensures SplitAsWritten(text, docIndex, fuel, parse) == None
    decreases fuel
  {
    var r := FindRound(text, docIndex);
    if fuel == 0 {
      OutOfFuel(text, docIndex, parse);
    } else {
      var next := r.docEnd + 1;
      StuckAfter(text, docIndex, next, fuel - 1, parse);
      NeverEndsStep(text, docIndex, next, fuel, parse);
    }
  }

  /** From one past such a round's document, the loop as written never
      ends. */
  lemma StuckAfter(text: string, docIndex: nat, next: nat, fuel: nat, parse: string -> Result<map<string, Field>>)
    requires docIndex <= |text| && FindRound(text, docIndex).Enclosed?
    requires FindRound(text, docIndex).docEnd < FindRound(text, docIndex).nameIndex
    requires parse(text[FindRound(text, docIndex).docStart..FindRound(text, docIndex).docEnd + 1]).Ok?
    requires next == FindRound(text, docIndex).docEnd + 1
    ensures next <= |text| && SplitAsWritten(text, next, fuel, parse) == None
  {
    var r := FindRound(text, docIndex);
    AsWrittenSticks(text, docIndex, r.nameIndex, r.docStart, r.docEnd, next);
    StuckForever(text, next, r.docStart, r.docEnd, fuel, parse);
  }

  /** A round whose document ends just before its docIndex sets that same
      docIndex again, round after round. */
  lemma {:induction false} StuckForever(text: string, docIndex: nat, s: nat, e: nat, fuel: nat,
                                         parse: string -> Result<map<string, Field>>)
    requires docIndex <= |text| && FindRound(text, docIndex).Enclosed?
    requires FindRound(text, docIndex).docStart == s && FindRound(text, docIndex).docEnd == e
    requires e + 1 == docIndex && parse(text[s..e + 1]).Ok?
    ensures SplitAsWritten(text, docIndex, fuel, parse) == None
    decreases fuel
  {
    if fuel == 0 {
      OutOfFuel(text, docIndex, parse);
    } else {
      StuckForever(text, docIndex, s, e, fuel - 1, parse);
      NeverEndsStep(text, docIndex, docIndex, fuel, parse);
    }
  }

  lemma NeverEndsStep(text: string, docIndex: nat, next: nat, fuel: nat, parse: string -> Result<map<string, Field>>)
    requires docIndex <= |text| && FindRound(text, docIndex).Enclosed? && fuel > 0
    requires parse(text[FindRound(text, docIndex).docStart..FindRound(text, docIndex).docEnd + 1]).Ok?
    requires next == FindRound(text, docIndex).docEnd + 1
    requires next <= |text| && SplitAsWritten(text, next, fuel - 1, parse) == None
    ensures SplitAsWritten(text, docIndex, fuel, parse) == None
  {
    var r := FindRound(text, docIndex);
    EnclosedStep(text, docIndex, r.nameIndex, r.docStart, r.docEnd, fuel, parse);
  }

  /** Wherever the loop as written ends, its result is the corrected
      loop's. */
  lemma AsWrittenAgrees(text: string, docIndex: nat, fuel: nat)
    requires docIndex <= |text|
    ensures SplitAsWritten(text, docIndex, fuel, ParseResponse).Some? ==>
      SplitAsWritten(text, docIndex, fuel, ParseResponse).value == SplitDocuments(text, docIndex)
  {
    AgreesWith(text, docIndex, fuel, ParseResponse);
  }

  /** Where the loop as written ends from docIndex within `fuel` rounds,
      it gives the corrected loop's result. */
  predicate AgreesFrom(text: string, docIndex: nat, fuel: nat, parse: string -> Result<map<string, Field>>)
    requires docIndex <= |text|
  {
    SplitAsWritten(text, docIndex, fuel, parse).Some? ==>
      SplitAsWritten(text, docIndex, fuel, parse).value == SplitDocumentsWith(text, docIndex, parse)
  }

  lemma {:induction false} AgreesWith(text: string, docIndex: nat, fuel: nat, parse: string -> Result<map<string, Field>>)
    requires docIndex <= |text|
    ensures AgreesFrom(text, docIndex, fuel, parse)
    decreases fuel
  {
    var r := FindRound(text, docIndex);
    if r.NoMoreNames? {
      NoMoreNamesStep(text, docIndex, fuel, parse);
    } else if fuel == 0 {
      OutOfFuel(text, docIndex, parse);
    } else {
      RoundAgrees(text, docIndex, fuel, parse);
      AgreesWith(text, NextDocIndex(r), fuel - 1, parse);
    }
  }

  /** One round that finds a name: agreement from the corrected next index
      on gives agreement from docIndex. */
  lemma RoundAgrees(text: string, docIndex: nat, fuel: nat, parse: string -> Result<map<string, Field>>)
    requires docIndex <= |text| && !FindRound(text, docIndex).NoMoreNames? && fuel > 0
    ensures NextDocIndex(FindRound(text, docIndex)) <= |text|
    ensures AgreesFrom(text, NextDocIndex(FindRound(text, docIndex)), fuel - 1, parse) ==> AgreesFrom(text, docIndex, fuel, parse)
  {
    var r := FindRound(text, docIndex);
    if r.Unenclosed? {
      UnenclosedAgrees(text, docIndex, fuel, parse);
    } else if r.docEnd < r.nameIndex {
      StuckAgrees(text, docIndex, fuel, parse);
    } else {
      EnclosedAgrees(text, docIndex, fuel, parse);
    }
  }

  lemma UnenclosedAgrees(text: string, docIndex: nat, fuel: nat, parse: string -> Result<map<string, Field>>)
    requires docIndex <= |text| && FindRound(text, docIndex).Unenclosed? && fuel > 0
    ensures NextDocIndex(FindRound(text, docIndex)) <= |text|
    ensures AgreesFrom(text, NextDocIndex(FindRound(text, docIndex)), fuel - 1, parse) ==> AgreesFrom(text, docIndex, fuel, parse)
  {
    UnenclosedStep(text, docIndex, FindRound(text, docIndex).nameIndex, fuel, parse);
  }

  /** A round whose brace closes before its name: the loop as written
      raises with the corrected one, or never ends. */
  lemma StuckAgrees(text: string, docIndex: nat, fuel: nat, parse: string -> Result<map<string, Field>>)
    requires docIndex <= |text| && FindRound(text, docIndex).Enclosed? && fuel > 0
    requires FindRound(text, docIndex).docEnd < FindRound(text, docIndex).nameIndex
    ensures AgreesFrom(text, docIndex, fuel, parse)
  {
    var r := FindRound(text, docIndex);
    if parse(text[r.docStart..r.docEnd + 1]).Thrown? {
      ThrownStep(text, docIndex, r.nameIndex, r.docStart, r.docEnd, fuel, parse);
    } else {
      AsWrittenNeverEnds(text, docIndex, fuel, parse);
    }
  }

  /** A round whose object encloses its name: both loops raise, or both
      put the same document in front of what they find from one past the
      object. */
  lemma EnclosedAgrees(text: string, docIndex: nat, fuel: nat, parse: string -> Result<map<string, Field>>)
    requires docIndex <= |text| && FindRound(text, docIndex).Enclosed? && fuel > 0
    requires FindRound(text, docIndex).nameIndex <= FindRound(text, docIndex).docEnd
    ensures NextDocIndex(FindRound(text, docIndex)) <= |text|
    ensures AgreesFrom(text, NextDocIndex(FindRound(text, docIndex)), fuel - 1, parse) ==> AgreesFrom(text, docIndex, fuel, parse)
  {
    var r := FindRound(text, docIndex);
    if parse(text[r.docStart..r.docEnd + 1]).Thrown? {
      ThrownStep(text, docIndex, r.nameIndex, r.docStart, r.docEnd, fuel, parse);
    } else {
      EnclosedStep(text, docIndex, r.nameIndex, r.docStart, r.docEnd, fuel, parse);
      TakeStep(text, docIndex, r.nameIndex, r.docStart, r.docEnd, parse);
    }
  }

  // One round of each loop, for each kind of round.

  lemma NoMoreNamesStep(text: string, docIndex: nat, fuel: nat, parse: string -> Result<map<string, Field>>)
    requires docIndex <= |text| && FindRound(text, docIndex).NoMoreNames?
    ensures SplitAsWritten(text, docIndex, fuel, parse) == Some(Ok([]))
    ensures SplitDocumentsWith(text, docIndex, parse) == Ok([])
  {
  }

  lemma OutOfFuel(text: string, docIndex: nat, parse: string -> Result<map<string, Field>>)
    requires docIndex <= |text| && !FindRound(text, docIndex).NoMoreNames?
    ensures SplitAsWritten(text, docIndex, 0, parse) == None
  {
  }

  lemma UnenclosedStep(text: string, docIndex: nat, n: nat, fuel: nat, parse: string -> Result<map<string, Field>>)
    requires docIndex <= |text| && FindRound(text, docIndex) == Unenclosed(n) && fuel > 0
    ensures n + 1 <= |text|
    ensures SplitAsWritten(text, docIndex, fuel, parse) == SplitAsWritten(text, n + 1, fuel - 1, parse)
    ensures SplitDocumentsWith(text, docIndex, parse) == SplitDocumentsWith(text, n + 1, parse)
  {
  }

  lemma ThrownStep(text: string, docIndex: nat, n: nat, s: nat, e: nat, fuel: nat,
                   parse: string -> Result<map<string, Field>>)
    requires docIndex <= |text| && FindRound(text, docIndex) == Enclosed(n, s, e) && fuel > 0
    requires parse(text[s..e + 1]).Thrown?
    ensures SplitAsWritten(text, docIndex, fuel, parse) == Some(Thrown)
    ensures SplitDocumentsWith(text, docIndex, parse) == Thrown
  {
  }

  /** One round of the loop as written over a document that parses. */
  lemma EnclosedStep(text: string, docIndex: nat, n: nat, s: nat, e: nat, fuel: nat,
                     parse: string -> Result<map<string, Field>>)
    requires docIndex <= |text| && FindRound(text, docIndex) == Enclosed(n, s, e)
    requires parse(text[s..e + 1]).Ok? && fuel > 0
    ensures e + 1 <= |text|
    ensures SplitAsWritten(text, e + 1, fuel - 1, parse) == None ==> SplitAsWritten(text, docIndex, fuel, parse) == None
    ensures SplitAsWritten(text, e + 1, fuel - 1, parse).Some? ==>
      SplitAsWritten(text, docIndex, fuel, parse)
        == Some(AddDocument(parse(text[s..e + 1]), SplitAsWritten(text, e + 1, fuel - 1, parse).value))
  {
    var whole := SplitAsWritten(text, docIndex, fuel, parse);
    var rest := SplitAsWritten(text, e + 1, fuel - 1, parse);
    EnclosedStepValues(text, docIndex, n, s, e, fuel, parse, whole, rest);
  }

  lemma EnclosedStepValues(text: string, docIndex: nat, n: nat, s: nat, e: nat, fuel: nat,
                           parse: string -> Result<map<string, Field>>,
                           whole: Option<Result<seq<map<string, Field>>>>, rest: Option<Result<seq<map<string, Field>>>>)
    requires docIndex <= |text| && FindRound(text, docIndex) == Enclosed(n, s, e)
    requires parse(text[s..e + 1]).Ok? && fuel > 0
    requires whole == SplitAsWritten(text, docIndex, fuel, parse) && rest == SplitAsWritten(text, e + 1, fuel - 1, parse)
    ensures rest == None ==> whole == None
    ensures rest.Some? ==> whole == Some(AddDocument(parse(text[s..e + 1]), rest.value))
  {
  }

  /** One round of the corrected loop over an object that encloses its
      name. */
  lemma TakeStep(text: string, docIndex: nat, n: nat, s: nat, e: nat, parse: string -> Result<map<string, Field>>)
    requires docIndex <= |text| && FindRound(text, docIndex) == Enclosed(n, s, e) && n <= e
    ensures e + 1 <= |text|
    ensures SplitDocumentsWith(text, docIndex, parse)
      == AddDocument(parse(text[s..e + 1]), SplitDocumentsWith(text, e + 1, parse))
  {
    assert NextDocIndex(FindRound(text, docIndex)) == e + 1;
    var whole := SplitDocumentsWith(text, docIndex, parse);
    var rest := SplitDocumentsWith(text, NextDocIndex(FindRound(text, docIndex)), parse);
    TakeStepValues(text, docIndex, parse, whole, rest);
  }

  lemma TakeStepValues(text: string, docIndex: nat, parse: string -> Result<map<string, Field>>,
                       whole: Result<seq<map<string, Field>>>, rest: Result<seq<map<string, Field>>>)
    requires docIndex <= |text| && FindRound(text, docIndex).Enclosed?
    requires whole == SplitDocumentsWith(text, docIndex, parse)
    requires NextDocIndex(FindRound(text, docIndex)) <= |text|
    requires rest == SplitDocumentsWith(text, NextDocIndex(FindRound(text, docIndex)), parse)
    ensures var r := FindRound(text, docIndex); whole == AddDocument(parse(text[r.docStart..r.docEnd + 1]), rest)
  {
  }

  /** One round's search: the "name", the backwards walk, the brace match. */
  method NextRound(text: string, docIndex: nat) returns (r: Round)
    requires docIndex <= |text|
    ensures r == FindRound(text, docIndex)
  {
    var nameIndex := IndexFrom(text, NAME_KEY, docIndex);
    if nameIndex == -1 {
      return NoMoreNames;
    }
    var docStart := nameIndex - 1;
    while docStart >= 0 && text[docStart] != '{'
      invariant -1 <= docStart < nameIndex
      invariant BraceAtOrBefore(text, docStart) == BraceAtOrBefore(text, nameIndex - 1)
      decreases docStart + 1
    {
      docStart := docStart - 1;
    }
    if docStart < 0 {
      return Unenclosed(nameIndex);
    }
    var found := FindMatchingBrace(text, docStart);
    var docEnd := found.value;
    if docEnd == -1 {
      return Unenclosed(nameIndex);
    }
    return Enclosed(nameIndex, docStart, docEnd);
  }

  function PrependDocs(done: seq<map<string, Field>>, r: Result<seq<map<string, Field>>>): Result<seq<map<string, Field>>>
  {
    match r
    case Thrown => Thrown
    case Ok(ds) => Ok(done + ds)
  }

  lemma SplitSkip(text: string, docIndex: nat, done: seq<map<string, Field>>)
    requires docIndex <= |text| && FindRound(text, docIndex).Unenclosed?
    ensures PrependDocs(done, SplitDocuments(text, docIndex))
         == PrependDocs(done, SplitDocuments(text, NextDocIndex(FindRound(text, docIndex))))
  {
  }

  lemma SplitTake(text: string, docIndex: nat, done: seq<map<string, Field>>, docStr: string, doc: map<string, Field>)
    requires docIndex <= |text|
    requires FindRound(text, docIndex).Enclosed?
    requires docStr == text[FindRound(text, docIndex).docStart..FindRound(text, docIndex).docEnd + 1]
    requires ParseResponse(docStr) == Ok(doc)
    ensures PrependDocs(done, SplitDocuments(text, docIndex))
         == PrependDocs(if |doc| > 0 then done + [doc] else done, SplitDocuments(text, NextDocIndex(FindRound(text, docIndex))))
  {
    PrependAdd(done, doc, SplitDocuments(text, NextDocIndex(FindRound(text, docIndex))));
  }

  lemma PrependAdd(done: seq<map<string, Field>>, doc: map<string, Field>, rest: Result<seq<map<string, Field>>>)
    ensures PrependDocs(done, AddDocument(Ok(doc), rest))
         == PrependDocs(if |doc| > 0 then done + [doc] else done, rest)
  {
    if rest.Ok? && |doc| > 0 {
      assert done + ([doc] + rest.value) == (done + [doc]) + rest.value;
    }
  }

  lemma SplitRaise(text: string, docIndex: nat, done: seq<map<string, Field>>, docStr: string)
    requires docIndex <= |text|
    requires FindRound(text, docIndex).Enclosed?
    requires docStr == text[FindRound(text, docIndex).docStart..FindRound(text, docIndex).docEnd + 1]
    requires ParseResponse(docStr).Thrown?
    ensures PrependDocs(done, SplitDocuments(text, docIndex)) == Thrown
  {
  }

  lemma SplitEnd(text: string, docIndex: nat, done: seq<map<string, Field>>)
    requires docIndex <= |text| && FindRound(text, docIndex).NoMoreNames?
    ensures PrependDocs(done, SplitDocuments(text, docIndex)) == Ok(done)
  {
    assert done + [] == done;
  }

  /** One pass of QueryDocuments' loop from docIndex: it ends the loop
      (`stop`), raises (`failed`), or moves on to `next` having appended
      the document it parsed to `after`. */
  method QueryRound(text: string, docIndex: nat, before: seq<map<string, Field>>)
    returns (stop: bool, failed: bool, after: seq<map<string, Field>>, next: nat)
    requires docIndex <= |text|
    ensures !stop ==> (docIndex < next <= |text|
      && PrependDocs(before, SplitDocuments(text, docIndex)) == PrependDocs(after, SplitDocuments(text, next)))
    ensures stop && !failed ==> PrependDocs(before, SplitDocuments(text, docIndex)) == Ok(before)
    ensures stop && failed ==> PrependDocs(before, SplitDocuments(text, docIndex)) == Thrown
  {
    after, next := before, docIndex;
    var round := NextRound(text, docIndex);
    if round.NoMoreNames? {
      SplitEnd(text, docIndex, before);
      return true, false, after, next;
    }
    NextDocIndexProgress(text, docIndex);
    next := NextDocIndex(round);
    if round.Unenclosed? {
      SplitSkip(text, docIndex, before);
      return false, false, after, next;
    }
    failed, after := TakeDocument(text, docIndex, round, before);
    return failed, failed, after, next;
  }

  /** The enclosed case of a round: the document between the braces is
      parsed and kept when it has fields. */
  method TakeDocument(text: string, docIndex: nat, round: Round, before: seq<map<string, Field>>)
    returns (failed: bool, after: seq<map<string, Field>>)
    requires docIndex <= |text| && round == FindRound(text, docIndex) && round.Enclosed?
    ensures failed ==> PrependDocs(before, SplitDocuments(text, docIndex)) == Thrown
    ensures !failed ==> (PrependDocs(before, SplitDocuments(text, docIndex))
      == PrependDocs(after, SplitDocuments(text, NextDocIndex(round))))
  {
    var docStr := text[round.docStart..round.docEnd + 1];
    var doc := ParseFirestoreResponse(docStr);
    if doc.Thrown? {
      SplitRaise(text, docIndex, before, docStr);
      return true, before;
    }
    SplitTake(text, docIndex, before, docStr, doc.value);
    after := before;
    if |doc.value| > 0 {
      after := before + [doc.value];
    }
    return false, after;
  }

  /** `QueryDocuments` once its request has completed, with the docIndex
      update corrected to `max(docEnd, nameIndex) + 1`. */
  method QueryDocuments(response: Option<string>) returns (results: seq<map<string, Field>>)
    ensures results == QueryResult(response)
  {
    if response.None? {
      return [];
    }
    var responseText := response.value;
    results := [];
    var docIndex := 0;
    assert PrependDocs(results, SplitDocuments(responseText, 0)) == SplitDocuments(responseText, 0) by {
      assert SplitDocuments(responseText, 0).Ok? ==> [] + SplitDocuments(responseText, 0).value == SplitDocuments(responseText, 0).value;
    }
    while true
      invariant docIndex <= |responseText|
      invariant SplitDocuments(responseText, 0) == PrependDocs(results, SplitDocuments(responseText, docIndex))
      decreases |responseText| - docIndex
    {
      var stop, failed, after, next := QueryRound(responseText, docIndex, results);
      if stop && failed {
        return [];
      }
      if stop {
        break;
      }
      results, docIndex := after, next;
    }
  }

  // ---------------------------------------------------------------------
  // FirestoreDocument conversions

  /** A `FirestoreValue` record; null strings are None. */
  datatype FirestoreValue = FirestoreValue(
    stringValue: Option<string>,
    integerValue: Option<string>,
    booleanValue: bool,
    doubleValue: Option<string>)

  const EMPTY_VALUE := FirestoreValue(None, None, false, None)

  /** The record ConvertToFirestoreDocument stores for one value; a value
      of any other type (and null) leaves the record empty. */
  function ToFirestoreValue(v: Value): FirestoreValue
  {
    match v
    case VString(s) => EMPTY_VALUE.(stringValue := Some(s))
    case VInteger(n) => EMPTY_VALUE.(integerValue := Some(IntToString(n)))
    case VBool(b) => EMPTY_VALUE.(booleanValue := b)
    case VReal(t) => EMPTY_VALUE.(doubleValue := Some(t))
    case VOther(_) => EMPTY_VALUE
    case VNull => EMPTY_VALUE
  }

  predicate NonEmpty(s: Option<string>)
  {
    s.Some? && s.value != ""
  }

  /** The value ConvertFromFirestoreDocument reads from one record: a
      non-empty string, else a non-empty integer text parsed as a long and
      cast to int, else a non-empty double text, else the boolean; None
      where the parse fails. */
  function FromFirestoreValue(fv: FirestoreValue): Option<Field>
  {
    if NonEmpty(fv.stringValue) then Some(FString(fv.stringValue.value))
    else if NonEmpty(fv.integerValue) then
      match ParseInt64(fv.integerValue.value)
      case Some(l) => Some(FInt(Wrap32(l)))
      case None => None
    else if NonEmpty(fv.doubleValue) then
      match ParseDecimal(fv.doubleValue.value)
      case Some(d) => Some(FDouble(d))
      case None => None
    else Some(FBool(fv.booleanValue))
  }

  /** `ConvertToFirestoreDocument`: one record per key. */
  method ConvertToFirestoreDocument(data: Entries) returns (fields: map<string, FirestoreValue>)
    requires DistinctKeys(data)
    ensures fields.Keys == set i | 0 <= i < |data| :: data[i].0
    ensures forall i :: 0 <= i < |data| ==> fields[data[i].0] == ToFirestoreValue(data[i].1)
  {
    fields := map[];
    for n := 0 to |data|
      invariant fields.Keys == set i | 0 <= i < n :: data[i].0
      invariant forall i :: 0 <= i < n ==> fields[data[i].0] == ToFirestoreValue(data[i].1)
    {
      fields := fields[data[n].0 := ToFirestoreValue(data[n].1)];
    }
  }

  /** `ConvertFromFirestoreDocument` for a record whose `fields` may be
      null: every key whose record reads back as a value. */
  method ConvertFromFirestoreDocument(fields: Option<map<string, FirestoreValue>>) returns (result: map<string, Field>)
    ensures fields.None? ==> result == map[]
    ensures fields.Some? ==> result.Keys == set k | k in fields.value && FromFirestoreValue(fields.value[k]).Some?
    ensures fields.Some? ==> forall k :: k in result ==> result[k] == FromFirestoreValue(fields.value[k]).value
  {
    result := map[];
    if fields.None? {
      return;
    }
    var m := fields.value;
    var remaining := m.Keys;
    while remaining != {}
      invariant remaining <= m.Keys
      invariant result.Keys == set k | k in m && k !in remaining && FromFirestoreValue(m[k]).Some?
      invariant forall k :: k in result ==> result[k] == FromFirestoreValue(m[k]).value
      decreases remaining
    {
      var k :| k in remaining;
      var value := FromFirestoreValue(m[k]);
      if value.Some? {
        result := result[k := value.value];
      }
      remaining := remaining - {k};
    }
  }

  /** Converting to a record and back restores a non-empty string, an int
      and a bool. */
  lemma ConversionRoundTrip(v: Value)
    ensures v.VString? && v.s != "" ==> FromFirestoreValue(ToFirestoreValue(v)) == Some(FString(v.s))
    ensures v.VInteger? && IsInt32(v.n) ==> FromFirestoreValue(ToFirestoreValue(v)) == Some(FInt(v.n))
    ensures v.VBool? ==> FromFirestoreValue(ToFirestoreValue(v)) == Some(FBool(v.b))
  {
    if v.VInteger? && IsInt32(v.n) {
      ParseIntegerOfIntToString(v.n, INT64_MIN, INT64_MAX);
    }
  }

  /** What the round trip loses: the empty string comes back as the
      boolean false, a long outside int range wraps, and a value of any
      other type comes back as false too. */
  lemma ConversionLosses()
    ensures FromFirestoreValue(ToFirestoreValue(VString(""))) == Some(FBool(false))
    ensures FromFirestoreValue(ToFirestoreValue(VInteger(INT32_MAX + 1))) == Some(FInt(INT32_MIN))
    ensures FromFirestoreValue(ToFirestoreValue(VOther("x"))) == Some(FBool(false))
  {
    ParseIntegerOfIntToString(INT32_MAX + 1, INT64_MIN, INT64_MAX);
  }
}
