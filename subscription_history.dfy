/** SubscriptionHistoryService: the audit trail of a subscription. Each
 *  lifecycle step appends a history row naming the action, who performed
 *  it, a small JSON metadata object and a note; a failed insert is logged
 *  and swallowed. The history is read back newest first, whole or a page
 *  at a time. */
module SubscriptionHistory {
  import opened Common
  import opened Calendar
  import opened JsonInput

  /** A row of the subscription_history table; metadata is the JSON text
   *  stored in the jsonb column. */
  datatype HistoryEntry = HistoryEntry(
    id: Uuid,
    tenantId: Uuid,
    subscriptionId: Uuid,
    action: string,
    performedBy: Option<Uuid>,
    performedByType: Option<string>,
    performedAt: Instant,
    metadata: Option<string>,
    notes: Option<string>,
    createdAt: Instant)

  /** A metadata map as its entries come out of the map's iterator, each
   *  value by its toString. `Map.of`'s iteration order is unspecified; the
   *  model takes the order in which the call lists them. */
  type Metadata = seq<(string, string)>

  // ---------------------------------------------------------------- toJson

  function JsonMember(e: (string, string)): string
  {
    "\"" + e.0 + "\":\"" + e.1 + "\""
  }

  /** The members joined by ",", first to last. */
  function JsonMembers(entries: Metadata): string
  {
    if entries == [] then ""
    else if |entries| == 1 then JsonMember(entries[0])
    else JsonMember(entries[0]) + "," + JsonMembers(entries[1..])
  }

  /** The text toJson writes: every value quoted, nothing escaped. */
  function JsonText(entries: Metadata): string
  {
    "{" + JsonMembers(entries) + "}"
  }

  lemma {:induction false} JsonMembersSnoc(entries: Metadata, e: (string, string))
    ensures JsonMembers(entries + [e]) == JsonMembers(entries) + (if entries == [] then "" else ",") + JsonMember(e)
    decreases |entries|
  {
    if |entries| >= 2 {
      assert (entries + [e])[1..] == entries[1..] + [e];
      JsonMembersSnoc(entries[1..], e);
    } else if |entries| == 1 {
      assert (entries + [e])[1..] == [e];
    }
  }

  /** toJson: a StringBuilder opened with "{", a "," before every entry
   *  but the first, each entry as "key":"value", closed with "}". */
  method ToJson(entries: Metadata) returns (json: string)
    ensures json == JsonText(entries)
  {
    json := "{";
    var first := true;
    var i := 0;
    while i < |entries|
      invariant 0 <= i <= |entries|
      invariant first <==> i == 0
      invariant json == "{" + JsonMembers(entries[..i])
    {
      ghost var before := json;
      var sep := "";
      if !first {
        sep := ",";
      }
      var member := "\"" + entries[i].0 + "\":\"" + entries[i].1 + "\"";
      json := json + sep + member;
      first := false;
      assert json == "{" + JsonMembers(entries[..i + 1]) by {
        assert member == JsonMember(entries[i]);
        JsonMembersSnoc(entries[..i], entries[i]);
        assert entries[..i + 1] == entries[..i] + [entries[i]];
        assert before + sep + member == "{" + (JsonMembers(entries[..i]) + sep + member);
      }
      i := i + 1;
    }
    assert entries[..i] == entries;
    json := json + "}";
  }

  // ---------------------------------------------------------------- reading the text back

  /** The first double quote at or after from, or the end of the text. */
  function NextQuote(s: string, from: nat): (r: nat)
    requires from <= |s|
    ensures from <= r <= |s|
    ensures r < |s| ==> s[r] == '"'
    decreases |s| - from
  {
    if from == |s| || s[from] == '"' then from else NextQuote(s, from + 1)
  }

  /** A run of n characters without a quote, then a quote, is skipped whole. */
  lemma {:induction false} NextQuoteSkips(s: string, from: nat, n: nat)
    requires from + n < |s| && s[from + n] == '"'
    requires forall j :: from <= j < from + n ==> s[j] != '"'
    ensures NextQuote(s, from) == from + n
    decreases n
  {
    if n > 0 {
      NextQuoteSkips(s, from + 1, n - 1);
    }
  }

  /** Reads one `"k":"v"` member at the start of the text: the entry and
   *  the place of its closing quote. */
  function ParseMember(t: string): (r: Option<((string, string), nat)>)
    ensures r.Some? ==> r.value.1 < |t|
  {
    if |t| == 0 || t[0] != '"' then None
    else
      var i := NextQuote(t, 1);
      if i + 2 >= |t| || t[i + 1] != ':' || t[i + 2] != '"' then None
      else
        var j := NextQuote(t, i + 3);
        if j == |t| then None
        else Some(((t[1..i], t[i + 3..j]), j))
  }

  /** Reads `"k":"v"` members separated by ","; None for any other text. */
  function ParseMembers(t: string): Option<Metadata>
    decreases |t|
  {
    match ParseMember(t)
    case None => None
    case Some((e, j)) =>
      if j + 1 == |t| then Some([e])
      else if t[j + 1] != ',' then None
      else match ParseMembers(t[j + 2..])
        case None => None
        case Some(rest) => Some([e] + rest)
  }

  /** Reads a metadata object back from its text. */
  function ParseJson(text: string): Option<Metadata>
  {
    if |text| < 2 || text[0] != '{' || text[|text| - 1] != '}' then None
    else if |text| == 2 then Some([])
    else ParseMembers(text[1..|text| - 1])
  }

  predicate QuoteFree(entries: Metadata)
  {
    forall i :: 0 <= i < |entries| ==> '"' !in entries[i].0 && '"' !in entries[i].1
  }

  /** One member followed by anything is read as that member, and reading
   *  goes on after it. */
  lemma MemberLayout(e: (string, string), tail: string)
    requires '"' !in e.0 && '"' !in e.1
    ensures var t := JsonMember(e) + tail;
            var i := 1 + |e.0|;
            var j := i + 3 + |e.1|;
            NextQuote(t, 1) == i && t[i + 1] == ':' && t[i + 2] == '"'
            && NextQuote(t, i + 3) == j && t[1..i] == e.0 && t[i + 3..j] == e.1
            && j + 1 == |JsonMember(e)| && t[j + 1..] == tail
  {
    var t := JsonMember(e) + tail;
    var i := 1 + |e.0|;
    var j := i + 3 + |e.1|;
    assert t[1..i] == e.0;
    assert t[i + 3..j] == e.1;
    forall k | 1 <= k < i ensures t[k] != '"' {
      assert t[k] == e.0[k - 1];
    }
    NextQuoteSkips(t, 1, |e.0|);
    forall k | i + 3 <= k < j ensures t[k] != '"' {
      assert t[k] == e.1[k - i - 3];
    }
    NextQuoteSkips(t, i + 3, |e.1|);
    assert t[j + 1..] == tail;
  }

  /** A member, read at the start of a text that begins with it. */
  lemma ParseMemberLayout(e: (string, string), tail: string)
    requires '"' !in e.0 && '"' !in e.1
    ensures ParseMember(JsonMember(e) + tail) == Some((e, |JsonMember(e)| - 1))
  {
    var t := JsonMember(e) + tail;
    var i := 1 + |e.0|;
    var j := i + 3 + |e.1|;
    assert t[0] == '"' && NextQuote(t, 1) == i && t[i + 1] == ':' && t[i + 2] == '"' && NextQuote(t, i + 3) == j
           && t[1..i] == e.0 && t[i + 3..j] == e.1 by {
      MemberLayout(e, tail);
    }
    assert (t[1..i], t[i + 3..j]) == e;
  }

  /** A lone member reads back as itself. */
  lemma ParseLastMember(e: (string, string))
    requires '"' !in e.0 && '"' !in e.1
    ensures ParseMembers(JsonMember(e)) == Some([e])
  {
    ParseMemberLayout(e, "");
    assert JsonMember(e) + "" == JsonMember(e);
  }

  /** A member followed by "," reads as that member, then whatever the rest
   *  reads as. */
  lemma ParseFirstMember(e: (string, string), rest: string)
    requires '"' !in e.0 && '"' !in e.1
    ensures ParseMembers(JsonMember(e) + "," + rest)
            == match ParseMembers(rest) case None => None case Some(es) => Some([e] + es)
  {
    var t := JsonMember(e) + ("," + rest);
    assert JsonMember(e) + "," + rest == t;
    var j := |JsonMember(e)| - 1;
    ParseMemberLayout(e, "," + rest);
    assert t[j + 1] == ',' && t[j + 2..] == rest;
  }

  lemma {:induction false} MembersRoundTrip(entries: Metadata)
    requires entries != [] && QuoteFree(entries)
    ensures ParseMembers(JsonMembers(entries)) == Some(entries)
    decreases |entries|
  {
    var e := entries[0];
    if |entries| == 1 {
      ParseLastMember(e);
      assert JsonMembers(entries) == JsonMember(e);
      assert entries == [e];
    } else {
      var rest := entries[1..];
      assert QuoteFree(rest) by {
        forall i | 0 <= i < |rest| ensures '"' !in rest[i].0 && '"' !in rest[i].1 {
          assert rest[i] == entries[i + 1];
        }
      }
      ParseFirstMember(e, JsonMembers(rest));
      assert JsonMember(e) + "," + JsonMembers(rest) == JsonMembers(entries);
      MembersRoundTrip(rest);
      assert [e] + rest == entries;
    }
  }

  /** What toJson writes reads back as the same entries, in the same order,
   *  as long as no key or value holds a double quote. */
  lemma JsonRoundTrip(entries: Metadata)
    requires QuoteFree(entries)
    ensures ParseJson(JsonText(entries)) == Some(entries)
  {
    var text := JsonText(entries);
    assert text[1..|text| - 1] == JsonMembers(entries);
    if entries != [] {
      MembersRoundTrip(entries);
      assert |JsonMembers(entries)| > 0;
    }
  }

  /** Without escaping, a value holding a double quote does not read back:
   *  a reason `say "hi"` is written as `{"reason":"say "hi""}`. */
  lemma QuoteInValueBreaksJson()
    ensures ParseJson(JsonText([("reason", "say \"hi\"")])) != Some([("reason", "say \"hi\"")])
  {
    var text := JsonText([("reason", "say \"hi\"")]);
    var t := text[1..|text| - 1];
    assert t == "\"reason\":\"say \"hi\"\"";
    NextQuoteSkips(t, 1, 6);
    NextQuoteSkips(t, 10, 4);
    assert t[15] != ',';
  }

  // ---------------------------------------------------------------- is it JSON?

  /** Every key and value stands for itself inside a JSON string. */
  predicate PlainMetadata(entries: Metadata)
  {
    forall i :: 0 <= i < |entries| ==> Plain(entries[i].0) && Plain(entries[i].1)
  }

  /** Where the characters of one written member sit. */
  lemma MemberChars(e: (string, string))
    ensures var t := JsonMember(e);
            |t| == |e.0| + |e.1| + 5 && t[0] == '"' && t[|e.0| + 1] == '"' && t[|e.0| + 2] == ':'
            && t[|e.0| + 3] == '"' && t[|t| - 1] == '"'
            && (forall k :: 0 <= k < |e.0| ==> t[1 + k] == e.0[k])
            && (forall k :: 0 <= k < |e.1| ==> t[|e.0| + 4 + k] == e.1[k])
  {
  }

  lemma MembersStartWithQuote(entries: Metadata)
    requires entries != []
    ensures |JsonMembers(entries)| > 0 && JsonMembers(entries)[0] == '"'
  {
    MemberChars(entries[0]);
    var m := JsonMember(entries[0]);
    assert JsonMembers(entries)[..|m|] == m;
    assert JsonMembers(entries)[0] == JsonMembers(entries)[..|m|][0];
  }

  /** One plain member as written, read by the object parser: its key is a
   *  string, a colon follows, and its value is a string ending where the
   *  member ends. */
  lemma PlainMemberParse(s: string, j: nat, e: (string, string))
    requires Plain(e.0) && Plain(e.1) && j + |JsonMember(e)| <= |s|
    requires forall k :: 0 <= k < |JsonMember(e)| ==> s[j + k] == JsonMember(e)[k]
    ensures Member(s, j) == Some(j + |JsonMember(e)|)
  {
    MemberChars(e);
    var colon := j + |e.0| + 2;
    PlainStringRest(s, j + 1, e.0);
    assert s[colon] == ':' && SkipWs(s, colon) == colon;
    assert s[colon + 1] == '"' && SkipWs(s, colon + 1) == colon + 1;
    PlainStringRest(s, colon + 2, e.1);
    assert Value(s, colon + 1) == Some(j + |JsonMember(e)|);
  }

  /** The members parser after a first member that ends at `end`. */
  lemma MembersAfterFirst(s: string, j: nat, e: (string, string), end: nat)
    requires Plain(e.0) && Plain(e.1) && j + |JsonMember(e)| == end < |s|
    requires forall k :: 0 <= k < |JsonMember(e)| ==> s[j + k] == JsonMember(e)[k]
    requires s[end] == '}' || s[end] == ','
    ensures s[end] == '}' ==> Members(s, j) == Some(end + 1)
    ensures s[end] == ',' ==> Members(s, j) == Members(s, SkipWs(s, end + 1))
  {
    PlainMemberParse(s, j, e);
    MembersAfterMember(s, j, end);
  }

  /** Text m + "," + rest laid out from j: m from j, the comma after it and
   *  rest after the comma. */
  lemma CommaSplit(s: string, j: nat, m: string, rest: string)
    requires j + |m| + 1 + |rest| <= |s|
    requires forall k :: 0 <= k < |m + "," + rest| ==> s[j + k] == (m + "," + rest)[k]
    ensures forall k :: 0 <= k < |m| ==> s[j + k] == m[k]
    ensures s[j + |m|] == ','
    ensures forall k :: 0 <= k < |rest| ==> s[j + |m| + 1 + k] == rest[k]
  {
    var all := m + "," + rest;
    forall k | 0 <= k < |m| ensures s[j + k] == m[k] { assert all[k] == m[k]; }
    assert all[|m|] == ',';
    forall k | 0 <= k < |rest| ensures s[j + |m| + 1 + k] == rest[k] {
      assert all[|m| + 1 + k] == rest[k];
    }
  }

  /** A run of plain members, written by toJson and closed by "}", parses as
   *  the members of a JSON object. */
  lemma {:induction false} PlainMembersParse(s: string, j: nat, entries: Metadata)
    requires entries != [] && PlainMetadata(entries)
    requires j + |JsonMembers(entries)| < |s|
    requires forall k :: 0 <= k < |JsonMembers(entries)| ==> s[j + k] == JsonMembers(entries)[k]
    requires s[j + |JsonMembers(entries)|] == '}'
    ensures Members(s, j) == Some(j + |JsonMembers(entries)| + 1)
    decreases |entries|
  {
    var e := entries[0];
    var m := JsonMember(e);
    var all := JsonMembers(entries);
    var end := j + |m|;
    assert Plain(e.0) && Plain(e.1);
    if |entries| == 1 {
      assert all == m;
      MembersAfterFirst(s, j, e, end);
    } else {
      var rest := JsonMembers(entries[1..]);
      assert all == m + "," + rest;
      CommaSplit(s, j, m, rest);
      MembersStartWithQuote(entries[1..]);
      assert s[end + 1] == rest[0];
      assert SkipWs(s, end + 1) == end + 1;
      MembersAfterFirst(s, j, e, end);
      forall i | 0 <= i < |entries[1..]| ensures Plain(entries[1..][i].0) && Plain(entries[1..][i].1) {
        assert entries[1..][i] == entries[i + 1];
      }
      PlainMembersParse(s, end + 1, entries[1..]);
    }
  }

  /** toJson's text of plain metadata is JSON, so jsonb accepts it. */
  lemma PlainMetadataIsJson(entries: Metadata)
    requires PlainMetadata(entries)
    ensures IsJson(JsonText(entries))
  {
    var t := JsonText(entries);
    var all := JsonMembers(entries);
    assert t == "{" + all + "}";
    assert SkipWs(t, 0) == 0;
    assert Value(t, 0) == Object(t, 1);
    if entries == [] {
      assert t == "{}";
      assert SkipWs(t, 1) == 1;
      assert Object(t, 1) == Some(2);
    } else {
      MemberChars(entries[0]);
      assert all[..|JsonMember(entries[0])|] == JsonMember(entries[0]);
      assert t[1] == all[0] == '"';
      assert SkipWs(t, 1) == 1;
      assert Object(t, 1) == Members(t, 1);
      assert forall k :: 0 <= k < |all| ==> t[1 + k] == all[k];
      PlainMembersParse(t, 1, entries);
    }
  }

  /** toJson's text for the reason `say "hi"`. */
  lemma QuotedReasonText()
    ensures JsonText([("reason", "say \"hi\"")]) == "{\"reason\":\"say \"hi\"\"}"
  {
  }

  /** The text `{"reason":"say "hi""}` is not JSON: the value's string ends
   *  at the second quote and `h` follows where a "," or "}" must. */
  lemma QuotedReasonTextIsNotJson(t: string)
    requires t == "{\"reason\":\"say \"hi\"\"}"
    ensures !IsJson(t)
  {
    assert Plain("reason") && Plain("say ");
    PlainStringRest(t, 2, "reason");
    PlainStringRest(t, 11, "say ");
    assert SkipWs(t, 9) == 9 && SkipWs(t, 10) == 10 && SkipWs(t, 16) == 16;
    assert Value(t, 10) == Some(16);
    assert Members(t, 1) == None;
    assert SkipWs(t, 1) == 1;
    assert Value(t, 0) == None;
    assert SkipWs(t, 0) == 0;
  }

  /** A reason holding a double quote ends its string early: toJson's text
   *  is not JSON. */
  lemma QuotedReasonIsNotJson()
    ensures !IsJson(JsonText([("reason", "say \"hi\"")]))
  {
    QuotedReasonText();
    QuotedReasonTextIsNotJson(JsonText([("reason", "say \"hi\"")]));
  }

  // ---------------------------------------------------------------- recordAction

  /** Who is recording, for which subscription, when, and the id the new row
   *  would take. */
  datatype RecordContext = RecordContext(
    id: Uuid,
    tenantId: Uuid,
    subscriptionId: Uuid,
    performedBy: Option<Uuid>,
    performedByType: Option<string>,
    now: Instant)

  predicate HasEntryId(rows: seq<HistoryEntry>, id: Uuid)
  {
    exists i :: 0 <= i < |rows| && rows[i].id == id
  }

  /** The row recordAction inserts; metadata is stored as its JSON text, a
   *  null map as null. */
  function NewEntry(ctx: RecordContext, action: string, metadata: Option<Metadata>, notes: Option<string>): HistoryEntry
  {
    HistoryEntry(ctx.id, ctx.tenantId, ctx.subscriptionId, action, ctx.performedBy, ctx.performedByType,
                 ctx.now, if metadata.Some? then Some(JsonText(metadata.value)) else None, notes, ctx.now)
  }

  /** The insert throws when the row's id is taken or when the metadata's
   *  text, which toJson writes without escaping, is not JSON and the jsonb
   *  column refuses it. */
  predicate InsertFails(rows: seq<HistoryEntry>, ctx: RecordContext, metadata: Option<Metadata>)
  {
    HasEntryId(rows, ctx.id) || (metadata.Some? && !IsJson(JsonText(metadata.value)))
  }

  /** The history after recording: the new row appended, or, when the insert
   *  throws, the history unchanged, the error swallowed. */
  predicate Recorded(rows: seq<HistoryEntry>, r: seq<HistoryEntry>, ctx: RecordContext, action: string,
                     metadata: Option<Metadata>, notes: Option<string>)
  {
    if InsertFails(rows, ctx, metadata) then r == rows
    else r == rows + [NewEntry(ctx, action, metadata, notes)]
  }

  /** recordAction: never fails; the row is inserted when its id is free and
   *  its metadata text is JSON. */
  function RecordAction(rows: seq<HistoryEntry>, ctx: RecordContext, action: string,
                        metadata: Option<Metadata>, notes: Option<string>): (r: seq<HistoryEntry>)
    ensures Recorded(rows, r, ctx, action, metadata, notes)
    ensures |r| <= |rows| + 1 && r[..|rows|] == rows
  {
    if InsertFails(rows, ctx, metadata) then rows else rows + [NewEntry(ctx, action, metadata, notes)]
  }

  /** Plain metadata never makes the insert fail: with a free id the row is
   *  appended. */
  lemma PlainMetadataIsRecorded(rows: seq<HistoryEntry>, ctx: RecordContext, action: string,
                                metadata: Metadata, notes: Option<string>)
    requires !HasEntryId(rows, ctx.id) && PlainMetadata(metadata)
    ensures RecordAction(rows, ctx, action, Some(metadata), notes) == rows + [NewEntry(ctx, action, Some(metadata), notes)]
  {
    PlainMetadataIsJson(metadata);
  }

  /** A cancellation or pause whose reason holds a double quote leaves no
   *  history row, even with a free id. */
  lemma QuotedReasonLeavesNoRow(rows: seq<HistoryEntry>, ctx: RecordContext)
    ensures RecordCancellation(rows, ctx, Some("say \"hi\"")) == Success(rows)
    ensures RecordPause(rows, ctx, Some("say \"hi\"")) == Success(rows)
  {
    QuotedReasonIsNotJson();
  }

  /** A recorded row's metadata reads back as the map that was recorded. */
  lemma RecordedMetadataReadsBack(rows: seq<HistoryEntry>, ctx: RecordContext, action: string,
                                  metadata: Metadata, notes: Option<string>)
    requires !HasEntryId(rows, ctx.id) && PlainMetadata(metadata)
    ensures var r := RecordAction(rows, ctx, action, Some(metadata), notes);
            |r| == |rows| + 1 && r[|rows|].metadata.Some? && ParseJson(r[|rows|].metadata.value) == Some(metadata)
  {
    PlainMetadataIsRecorded(rows, ctx, action, metadata, notes);
    JsonRoundTrip(metadata);
  }

  // ---------------------------------------------------------------- the record helpers

  function RecordCreation(rows: seq<HistoryEntry>, ctx: RecordContext): (r: seq<HistoryEntry>)
    ensures Recorded(rows, r, ctx, "CREATED", None, Some("Subscription created"))
  {
    RecordAction(rows, ctx, "CREATED", None, Some("Subscription created"))
  }

  /** `Map.of("reason", reason)` throws on a null reason before anything is
   *  recorded. */
  function RecordPause(rows: seq<HistoryEntry>, ctx: RecordContext, reason: Option<string>): (r: Result<seq<HistoryEntry>>)
    ensures r.Success? <==> reason.Some?
    ensures r.Success? ==> Recorded(rows, r.value, ctx, "PAUSED", Some([("reason", reason.value)]), Some("Subscription paused"))
  {
    if reason.None? then Failure("NullPointerException")
    else Success(RecordAction(rows, ctx, "PAUSED", Some([("reason", reason.value)]), Some("Subscription paused")))
  }

  function RecordResume(rows: seq<HistoryEntry>, ctx: RecordContext): (r: seq<HistoryEntry>)
    ensures Recorded(rows, r, ctx, "RESUMED", None, Some("Subscription resumed"))
  {
    RecordAction(rows, ctx, "RESUMED", None, Some("Subscription resumed"))
  }

  /** Like a pause, a cancellation without a reason throws in `Map.of`. */
  function RecordCancellation(rows: seq<HistoryEntry>, ctx: RecordContext, reason: Option<string>): (r: Result<seq<HistoryEntry>>)
    ensures r.Success? <==> reason.Some?
    ensures r.Success? ==> Recorded(rows, r.value, ctx, "CANCELED", Some([("reason", reason.value)]), Some("Subscription canceled"))
  {
    if reason.None? then Failure("NullPointerException")
    else Success(RecordAction(rows, ctx, "CANCELED", Some([("reason", reason.value)]), Some("Subscription canceled")))
  }

  /** A plan change records both ids and both names; any of them null throws
   *  (toString on a null id, or `Map.of` on a null name). */
  function RecordPlanChange(rows: seq<HistoryEntry>, ctx: RecordContext, oldPlanId: Option<Uuid>, newPlanId: Option<Uuid>,
                            oldPlanName: Option<string>, newPlanName: Option<string>): (r: Result<seq<HistoryEntry>>)
    ensures r.Success? <==> oldPlanId.Some? && newPlanId.Some? && oldPlanName.Some? && newPlanName.Some?
    ensures r.Success? ==>
              Recorded(rows, r.value, ctx, "PLAN_CHANGED",
                       Some([("oldPlanId", oldPlanId.value), ("newPlanId", newPlanId.value),
                             ("oldPlanName", oldPlanName.value), ("newPlanName", newPlanName.value)]),
                       Some("Plan changed from " + oldPlanName.value + " to " + newPlanName.value))
  {
    if oldPlanId.None? || newPlanId.None? || oldPlanName.None? || newPlanName.None? then Failure("NullPointerException")
    else
      var metadata := [("oldPlanId", oldPlanId.value), ("newPlanId", newPlanId.value),
                       ("oldPlanName", oldPlanName.value), ("newPlanName", newPlanName.value)];
      Success(RecordAction(rows, ctx, "PLAN_CHANGED", Some(metadata),
                           Some("Plan changed from " + oldPlanName.value + " to " + newPlanName.value)))
  }

  function RecordPaymentUpdate(rows: seq<HistoryEntry>, ctx: RecordContext): (r: seq<HistoryEntry>)
    ensures Recorded(rows, r, ctx, "PAYMENT_UPDATED", None, Some("Payment method updated"))
  {
    RecordAction(rows, ctx, "PAYMENT_UPDATED", None, Some("Payment method updated"))
  }

  function RecordProductsUpdate(rows: seq<HistoryEntry>, ctx: RecordContext, productCount: int): (r: seq<HistoryEntry>)
    ensures Recorded(rows, r, ctx, "PRODUCTS_UPDATED", Some([("productCount", IntText(productCount))]),
                     Some("Subscription products updated (" + IntText(productCount) + " items)"))
  {
    RecordAction(rows, ctx, "PRODUCTS_UPDATED", Some([("productCount", IntText(productCount))]),
                 Some("Subscription products updated (" + IntText(productCount) + " items)"))
  }

  function RecordShippingUpdate(rows: seq<HistoryEntry>, ctx: RecordContext): (r: seq<HistoryEntry>)
    ensures Recorded(rows, r, ctx, "SHIPPING_UPDATED", None, Some("Shipping address updated"))
  {
    RecordAction(rows, ctx, "SHIPPING_UPDATED", None, Some("Shipping address updated"))
  }

  function RecordMetadataUpdate(rows: seq<HistoryEntry>, ctx: RecordContext): (r: seq<HistoryEntry>)
    ensures Recorded(rows, r, ctx, "METADATA_UPDATED", None, Some("Metadata updated"))
  {
    RecordAction(rows, ctx, "METADATA_UPDATED", None, Some("Metadata updated"))
  }

  function RecordArchival(rows: seq<HistoryEntry>, ctx: RecordContext, reason: Option<string>): (r: Result<seq<HistoryEntry>>)
    ensures r.Success? <==> reason.Some?
    ensures r.Success? ==> Recorded(rows, r.value, ctx, "ARCHIVED", Some([("reason", reason.value)]), Some("Subscription archived"))
  {
    if reason.None? then Failure("NullPointerException")
    else Success(RecordAction(rows, ctx, "ARCHIVED", Some([("reason", reason.value)]), Some("Subscription archived")))
  }

  /** A pause or cancellation with a quote-free reason stores metadata that
   *  reads back as exactly {reason}. */
  lemma ReasonMetadataIsReason(rows: seq<HistoryEntry>, ctx: RecordContext, reason: string)
    requires !HasEntryId(rows, ctx.id) && Plain(reason)
    ensures var r := RecordCancellation(rows, ctx, Some(reason)).value;
            |r| == |rows| + 1 && ParseJson(r[|rows|].metadata.value) == Some([("reason", reason)])
            && r[|rows|].action == "CANCELED"
    ensures var r := RecordPause(rows, ctx, Some(reason)).value;
            |r| == |rows| + 1 && ParseJson(r[|rows|].metadata.value) == Some([("reason", reason)])
            && r[|rows|].action == "PAUSED"
  {
    assert Plain("reason");
    PlainMetadataIsJson([("reason", reason)]);
    JsonRoundTrip([("reason", reason)]);
  }

  // ---------------------------------------------------------------- queries

  predicate OfSubscription(e: HistoryEntry, sid: Uuid) { e.subscriptionId == sid }

  function PerformedAt(e: HistoryEntry): int { e.performedAt }

  /** getSubscriptionHistory: the subscription's rows, newest first. */
  function History(rows: seq<HistoryEntry>, sid: Uuid): seq<HistoryEntry>
  {
    SortDesc(Filter(rows, (e: HistoryEntry) => OfSubscription(e, sid)), PerformedAt)
  }

  /** The history holds exactly the subscription's rows, newest first. */
  lemma HistoryIsNewestFirst(rows: seq<HistoryEntry>, sid: Uuid)
    ensures SortedDesc(History(rows, sid), PerformedAt)
    ensures forall e :: e in History(rows, sid) <==> e in rows && e.subscriptionId == sid
  {
    SortedSelection(rows, (e: HistoryEntry) => OfSubscription(e, sid), PerformedAt);
  }

  /** getSubscriptionHistory(id, page, size): LIMIT size OFFSET page * size;
   *  the database refuses a negative limit or offset. */
  function HistoryPage(rows: seq<HistoryEntry>, sid: Uuid, page: int, size: int): (r: Result<seq<HistoryEntry>>)
    ensures r.Success? <==> size >= 0 && page * size >= 0
    ensures r.Success? ==> |r.value| <= size
    ensures r.Success? ==> forall i :: 0 <= i < |r.value| ==>
              page * size + i < |History(rows, sid)| && r.value[i] == History(rows, sid)[page * size + i]
  {
    if size < 0 || page * size < 0 then Failure("LIMIT and OFFSET must not be negative")
    else Success(Slice(History(rows, sid), page * size, size))
  }

  /** A page is a whole run of the history: every position the page covers
   *  is filled. */
  lemma HistoryPageIsComplete(rows: seq<HistoryEntry>, sid: Uuid, page: nat, size: nat)
    ensures var h := History(rows, sid);
            |HistoryPage(rows, sid, page, size).value| == Max(0, Min(size, |h| - page * size))
  {
  }

  /** getHistoryCount: how many rows the subscription has. */
  function HistoryCount(rows: seq<HistoryEntry>, sid: Uuid): (n: nat)
    ensures n == |Filter(rows, (e: HistoryEntry) => OfSubscription(e, sid))|
    ensures n == |History(rows, sid)|
  {
    var f := Filter(rows, (e: HistoryEntry) => OfSubscription(e, sid));
    SortDescFacts(f, PerformedAt);
    assert |multiset(History(rows, sid))| == |multiset(f)|;
    |f|
  }
}
