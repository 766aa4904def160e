/** mcp_service/qa_memory_tools.py: the MCP tools in front of the QA memory service.
    They format the service's search results with `[QA_REF id]` anchors, record
    "shown" hits for what a search returned, and build the payloads of the upsert,
    hit and validation calls.

    The QA memory service is not part of this model: a search's reply is a parameter,
    and the other tools are modelled by the payload they send. */
module QaMemory {
  import opened Text
  import opened Values

  // ---------------------------------------------------------------------------
  // Anchors and formatting
  // ---------------------------------------------------------------------------

  const AnchorOpen: string := "[QA_REF "
  const AnchorClose: string := "]"

  /** `_make_anchor(qa_id)` */
  function MakeAnchor(qaId: string): (r: string)
    ensures |r| == |qaId| + 9
    ensures StartsWith(r, AnchorOpen) && r[|r| - 1] == ']'
  {
    AnchorOpen + qaId + AnchorClose
  }

  /** The id can be read back from its anchor. */
  lemma AnchorRoundTrip(qaId: string)
    ensures var a := MakeAnchor(qaId); a[|AnchorOpen|..|a| - 1] == qaId
  {
    var a := MakeAnchor(qaId);
    assert a[|AnchorOpen|..|a| - 1] == (AnchorOpen + qaId + AnchorClose)[8..8 + |qaId|];
  }

  /** Different ids have different anchors. */
  lemma AnchorInjective(x: string, y: string)
    requires MakeAnchor(x) == MakeAnchor(y)
    ensures x == y
  {
    AnchorRoundTrip(x);
    AnchorRoundTrip(y);
  }

  /** The three lines of an item's `render` text. */
  function Render(anchor: string, question: string, answer: string): string
  {
    Join([anchor, "Q: " + question, "A: " + answer], "\n")
  }

  /** `render` is the anchor line, then `Q: ` and the question, then `A: ` and the
      answer. */
  lemma RenderLines(anchor: string, question: string, answer: string)
    ensures Render(anchor, question, answer) == anchor + "\nQ: " + question + "\nA: " + answer
  {
    var parts := [anchor, "Q: " + question, "A: " + answer];
    assert parts[1..] == ["Q: " + question, "A: " + answer];
    assert parts[1..][1..] == ["A: " + answer];
    assert Join(parts[1..], "\n") == "Q: " + question + "\n" + ("A: " + answer);
  }

  /** The anchor is the first line of the rendering whenever the id holds no line
      break, so a client can find it verbatim. */
  lemma AnchorIsFirstLine(qaId: string, question: string, answer: string)
    requires !ContainsChar(qaId, '\n')
    ensures BeforeFirst(Render(MakeAnchor(qaId), question, answer), "\n") == MakeAnchor(qaId)
  {
    var a := MakeAnchor(qaId);
    var r := Render(a, question, answer);
    RenderLines(a, question, answer);
    assert r == a + ("\nQ: " + question + "\nA: " + answer);
    assert !ContainsChar(a, '\n') by {
      forall i | 0 <= i < |a| ensures a[i] != '\n' {
        if 8 <= i < 8 + |qaId| {
          assert a[i] == qaId[i - 8];
        }
      }
    }
    assert OccursAt(r, "\n", |a|);
    assert forall j :: 0 <= j < |a| ==> r[j] == a[j];
    forall j: nat | j < |a| ensures !OccursAt(r, "\n", j) {
      assert r[j] == a[j] && a[j] != '\n';
    }
    assert IndexOf(r, "\n") == Some(|a|);
  }

  /** The keys of a formatted item, in order. */
  const FormattedKeys: seq<string> := [
    "qa_id", "anchor", "question", "answer", "validation_level", "confidence", "scope", "tags",
    "source", "expiry_at", "relevance_score", "evidence_refs", "resource_uri", "render"]

  /** `item.get(key) or ""` */
  function TextOr(entries: seq<(string, Value)>, key: string): Value
  {
    Or(GetOr(entries, key, VNone), VStr(""))
  }

  /** The value `_format_result_item` gives each key, `item.get` standing for the
      lookups in the item's entries. */
  function ItemField(qaId: Value, entries: seq<(string, Value)>, key: string): Value
  {
    match key
    case "qa_id" => qaId
    case "anchor" => VStr(MakeAnchor(Str(qaId)))
    case "question" => TextOr(entries, "question")
    case "answer" => TextOr(entries, "answer")
    case "scope" => Or(GetOr(entries, "scope", VNone), VDict([]))
    case "tags" => Or(GetOr(entries, "tags", VNone), VList([]))
    case "source" => Or(GetOr(entries, "source", VNone), VDict([]))
    case "evidence_refs" => Or(GetOr(entries, "evidence_refs", VNone), VList([]))
    case "render" =>
      VStr(Render(MakeAnchor(Str(qaId)), Str(TextOr(entries, "question")), Str(TextOr(entries, "answer"))))
    case _ => GetOr(entries, key, VNone)
  }

  /** `_format_result_item(item)`: the dict with the keys of `FormattedKeys`, in that
      order. */
  function FormatResultItem(item: Value): (r: Outcome<seq<(string, Value)>>)
    ensures r.Ok? <==> item.VDict? && Lookup(item.entries, "qa_id").Some?
    ensures r.Err? ==> r.error == Subscript(item, "qa_id").error
    ensures r.Ok? ==> |r.value| == |FormattedKeys|
    ensures r.Ok? ==> forall i :: 0 <= i < |FormattedKeys| ==> r.value[i].0 == FormattedKeys[i]
  {
    match Subscript(item, "qa_id")
    case Err(e) => Err(e)
    case Ok(qaId) =>
      Ok(seq(|FormattedKeys|, i requires 0 <= i < |FormattedKeys| => (FormattedKeys[i], ItemField(qaId, item.entries, FormattedKeys[i]))))
  }

  /** Every key of a formatted item is looked up to its `ItemField` value. */
  lemma FormattedLookup(item: Value, i: nat)
    requires FormatResultItem(item).Ok? && i < |FormattedKeys|
    ensures Lookup(FormatResultItem(item).value, FormattedKeys[i])
            == Some(ItemField(Subscript(item, "qa_id").value, item.entries, FormattedKeys[i]))
  {
    var r := FormatResultItem(item).value;
    forall j | 0 <= j < i ensures r[j].0 != FormattedKeys[i] {
      assert FormattedKeys[j] != FormattedKeys[i] by {
        assert forall a, b :: 0 <= a < b < |FormattedKeys| ==> FormattedKeys[a] != FormattedKeys[b];
      }
    }
    LookupFirst(r, i, FormattedKeys[i]);
  }

  /** A question or answer renders as its text, a missing or falsy one as the empty
      text. */
  lemma TextOrRenders(entries: seq<(string, Value)>, key: string)
    ensures var v := GetOr(entries, key, VNone);
      Str(TextOr(entries, key)) == if Truthy(v) then Str(v) else ""
  {
  }

  /** The formatted item anchors the id and renders the question and the answer, a
      missing or falsy one as the empty text. */
  lemma FormattedRender(entries: seq<(string, Value)>, qaId: string)
    ensures var q := GetOr(entries, "question", VNone);
      var a := GetOr(entries, "answer", VNone);
      && ItemField(VStr(qaId), entries, "anchor") == VStr(MakeAnchor(qaId))
      && ItemField(VStr(qaId), entries, "render")
         == VStr(MakeAnchor(qaId) + "\nQ: " + (if Truthy(q) then Str(q) else "")
                                  + "\nA: " + (if Truthy(a) then Str(a) else ""))
  {
    var q := GetOr(entries, "question", VNone);
    var a := GetOr(entries, "answer", VNone);
    var qt := if Truthy(q) then Str(q) else "";
    var at := if Truthy(a) then Str(a) else "";
    TextOrRenders(entries, "question");
    TextOrRenders(entries, "answer");
    ItemFieldRender(VStr(qaId), entries);
    RenderLines(MakeAnchor(qaId), qt, at);
  }

  /** The `anchor` and `render` fields of a formatted item. */
  lemma ItemFieldRender(qaId: Value, entries: seq<(string, Value)>)
    ensures ItemField(qaId, entries, "anchor") == VStr(MakeAnchor(Str(qaId)))
    ensures ItemField(qaId, entries, "render")
            == VStr(Render(MakeAnchor(Str(qaId)), Str(TextOr(entries, "question")), Str(TextOr(entries, "answer"))))
  {
    assert "qa_id"[0] == 'q' && "anchor"[0] == 'a' && "question"[0] == 'q' && "answer"[0] == 'a';
    assert "scope"[0] == 's' && "tags"[0] == 't' && "source"[0] == 's' && "evidence_refs"[0] == 'e';
    assert "render"[0] == 'r' && |"anchor"| == 6 && |"answer"| == 6 && "anchor"[1] == 'n' && "answer"[1] == 'n';
    assert "anchor"[2] == 'c' && "answer"[2] == 's';
  }

  /** `scope` and `source` are never falsy (an empty dict replaces them), nor are
      `tags` and `evidence_refs` (an empty list), and a truthy one is kept; the
      remaining fields pass through as `item.get(key)`. */
  lemma FormattedDefaults(qaId: Value, entries: seq<(string, Value)>)
    ensures forall k :: k in {"scope", "source"} ==>
      ItemField(qaId, entries, k) == (if Truthy(GetOr(entries, k, VNone)) then GetOr(entries, k, VNone) else VDict([]))
    ensures forall k :: k in {"tags", "evidence_refs"} ==>
      ItemField(qaId, entries, k) == (if Truthy(GetOr(entries, k, VNone)) then GetOr(entries, k, VNone) else VList([]))
    ensures forall k :: k in {"validation_level", "confidence", "expiry_at", "relevance_score", "resource_uri"} ==>
      ItemField(qaId, entries, k) == GetOr(entries, k, VNone)
  {
  }

  // ---------------------------------------------------------------------------
  // retrieve_qa_kb
  // ---------------------------------------------------------------------------

  /** The client metadata the tools send. */
  const ClientMeta: Value := VDict([("client_id", VStr("unknown"))])

  /** A hit record's payload. */
  function HitPayload(qaId: Value, namespace: string, shown: bool, used: bool, client: Value): Value
  {
    VDict([("qa_id", qaId), ("namespace", VStr(namespace)), ("shown", VBool(shown)), ("used", VBool(used)), ("client", client)])
  }

  /** `[_format_result_item(r) for r in raw_results]`: every item formatted, in order,
      or the first item's error. */
  function FormatAll(items: seq<Value>): (r: Outcome<seq<seq<(string, Value)>>>)
    ensures r.Ok? <==> forall i :: 0 <= i < |items| ==> FormatResultItem(items[i]).Ok?
    ensures r.Ok? ==> |r.value| == |items| && forall i :: 0 <= i < |items| ==> r.value[i] == FormatResultItem(items[i]).value
    ensures r.Err? ==> exists i :: 0 <= i < |items| && FormatResultItem(items[i]) == Err(r.error)
  {
    if items == [] then Ok([])
    else
      match FormatResultItem(items[0])
      case Err(e) => Err(e)
      case Ok(first) =>
        match FormatAll(items[1..])
        case Err(e) => Err(e)
        case Ok(rest) => Ok([first] + rest)
  }

  /** `_record_shown_hits`'s loop: one hit payload per result, in order, each marked
      shown and not used. */
  method ShownHits(namespace: string, client: Value, results: seq<seq<(string, Value)>>) returns (tasks: seq<Value>)
    requires forall i :: 0 <= i < |results| ==> |results[i]| > 0 && results[i][0].0 == "qa_id"
    ensures |tasks| == |results|
    ensures forall i :: 0 <= i < |results| ==> tasks[i] == HitPayload(results[i][0].1, namespace, true, false, client)
  {
    tasks := [];
    for i := 0 to |results|
      invariant |tasks| == i
      invariant forall j :: 0 <= j < i ==> tasks[j] == HitPayload(results[j][0].1, namespace, true, false, client)
    {
      var item := results[i];
      var qaId := Lookup(item, "qa_id").value;
      tasks := tasks + [HitPayload(qaId, namespace, true, false, client)];
    }
  }

  /** The reply of `retrieve_qa_kb` for the service's search reply. */
  function Reply(schemaVersion: Value, formatted: seq<seq<(string, Value)>>, meta: Value): Value
  {
    VDict([("schema_version", schemaVersion),
           ("results", VList(seq(|formatted|, i requires 0 <= i < |formatted| => VDict(formatted[i])))),
           ("meta", meta)])
  }

  /** `retrieve_qa_kb(query, namespace, top_k)`: `r` is the tool's reply or the error it
      raised, and `scheduled` the hit payloads of the background task it starts, if
      it starts one. */
  method RetrieveQaKb(searchResp: Value, namespace: string) returns (r: Outcome<Value>, scheduled: Option<seq<Value>>)
    ensures !searchResp.VDict? ==> r == Err(NoAttribute(TypeName(searchResp), "get")) && scheduled.None?
    ensures searchResp.VDict? ==>
      var entries := searchResp.entries;
      match Iterate(GetOr(entries, "results", VList([])))
      case Err(e) => r == Err(e) && scheduled.None?
      case Ok(items) =>
        match FormatAll(items)
        case Err(e) => r == Err(e) && scheduled.None?
        case Ok(formatted) =>
          && r == Ok(Reply(GetOr(entries, "schema_version", VInt(1)), formatted, GetOr(entries, "meta", VDict([]))))
          && (scheduled.Some? <==> formatted != [])
          && (scheduled.Some? ==>
                |scheduled.value| == |formatted|
                && forall i :: 0 <= i < |formatted| ==>
                     scheduled.value[i] == HitPayload(formatted[i][0].1, namespace, true, false, ClientMeta))
  {
    scheduled := None;
    if !searchResp.VDict? {
      return Err(NoAttribute(TypeName(searchResp), "get")), None;
    }
    var entries := searchResp.entries;
    var schemaVersion := GetOr(entries, "schema_version", VInt(1));
    var rawResults := Iterate(GetOr(entries, "results", VList([])));
    if rawResults.Err? {
      return Err(rawResults.error), None;
    }
    var formatted := FormatAll(rawResults.value);
    if formatted.Err? {
      return Err(formatted.error), None;
    }
    if formatted.value != [] {
      forall i | 0 <= i < |formatted.value| ensures |formatted.value[i]| > 0 && formatted.value[i][0].0 == "qa_id" {
        assert formatted.value[i] == FormatResultItem(rawResults.value[i]).value;
      }
      var tasks := ShownHits(namespace, ClientMeta, formatted.value);
      scheduled := Some(tasks);
    }
    r := Ok(Reply(schemaVersion, formatted.value, GetOr(entries, "meta", VDict([]))));
  }

  /** The reply lists the search results formatted one for one, in order, with
      `schema_version` 1 and an empty `meta` when the service gives none. */
  lemma ReplyResultsOneForOne(searchEntries: seq<(string, Value)>, items: seq<Value>)
    requires Lookup(searchEntries, "results") == Some(VList(items))
    requires Lookup(searchEntries, "schema_version").None? && Lookup(searchEntries, "meta").None?
    requires forall i :: 0 <= i < |items| ==> FormatResultItem(items[i]).Ok?
    ensures var formatted := FormatAll(items);
      && formatted.Ok?
      && (formatted.value != [] <==> items != [])
    ensures var reply := Reply(VInt(1), FormatAll(items).value, VDict([]));
      && reply.entries[0] == ("schema_version", VInt(1))
      && reply.entries[2] == ("meta", VDict([]))
      && |reply.entries[1].1.items| == |items|
      && forall i :: 0 <= i < |items| ==> reply.entries[1].1.items[i] == VDict(FormatResultItem(items[i]).value)
  {
  }

  // ---------------------------------------------------------------------------
  // The other tools' payloads
  // ---------------------------------------------------------------------------

  /** `qa_record_hit(qa_id, namespace, used, shown)` sends this payload. */
  function RecordHitPayload(qaId: string, namespace: string, used: bool, shown: bool): Value
  {
    HitPayload(VStr(qaId), namespace, shown, used, ClientMeta)
  }

  /** An explicit hit carries the given flags, both true unless stated; a shown hit
      from a search is shown and not used. */
  lemma HitFlags(qaId: Value, namespace: string, shown: bool, used: bool, client: Value)
    ensures var p := HitPayload(qaId, namespace, shown, used, client).entries;
      Lookup(p, "qa_id") == Some(qaId) && Lookup(p, "shown") == Some(VBool(shown)) && Lookup(p, "used") == Some(VBool(used))
  {
    var p := HitPayload(qaId, namespace, shown, used, client).entries;
    LookupFirst(p, 0, "qa_id");
    LookupFirst(p, 2, "shown");
    LookupFirst(p, 3, "used");
  }

  /** `qa_record_hit` passes `used` and `shown` through to their own keys, although its
      parameters list them in the other order. */
  lemma RecordHitFlags(qaId: string, namespace: string, used: bool, shown: bool)
    ensures var p := RecordHitPayload(qaId, namespace, used, shown).entries;
      Lookup(p, "qa_id") == Some(VStr(qaId)) && Lookup(p, "shown") == Some(VBool(shown)) && Lookup(p, "used") == Some(VBool(used))
  {
    HitFlags(VStr(qaId), namespace, shown, used, ClientMeta);
  }

  /** The client metadata of an upsert. */
  const UpsertClientMeta: Value := VDict([("client_id", VStr("unknown")), ("session_id", VNone), ("user_id", VNone)])

  /** `qa_upsert_candidate(...)` sends this payload; `tags`, `scope` and
      `evidence_refs` are the arguments as given, None when left out. */
  function UpsertCandidatePayload(questionRaw: string, answerRaw: string, namespace: string, tags: Value, scope: Value,
                                  timeSensitivity: string, evidenceRefs: Value): seq<(string, Value)>
  {
    [("question_raw", VStr(questionRaw)),
     ("answer_raw", VStr(answerRaw)),
     ("tags", Or(tags, VList([]))),
     ("scope", Or(scope, VDict([]))),
     ("time_sensitivity", VStr(timeSensitivity)),
     ("evidence_refs", Or(evidenceRefs, VList([]))),
     ("namespace", VStr(namespace)),
     ("client", UpsertClientMeta)]
  }

  /** Left-out lists and scope become empty ones; given ones are sent unchanged. */
  lemma UpsertDefaults(questionRaw: string, answerRaw: string, namespace: string, tags: Value, scope: Value,
                       timeSensitivity: string, evidenceRefs: Value)
    ensures var r := UpsertCandidatePayload(questionRaw, answerRaw, namespace, tags, scope, timeSensitivity, evidenceRefs);
      && Lookup(r, "tags") == Some(if Truthy(tags) then tags else VList([]))
      && Lookup(r, "scope") == Some(if Truthy(scope) then scope else VDict([]))
      && Lookup(r, "evidence_refs") == Some(if Truthy(evidenceRefs) then evidenceRefs else VList([]))
  {
    var r := UpsertCandidatePayload(questionRaw, answerRaw, namespace, tags, scope, timeSensitivity, evidenceRefs);
    assert r[0].0[0] == 'q' && r[1].0[0] == 'a' && r[2].0[0] == 't' && r[3].0[0] == 's' && r[4].0[0] == 't';
    assert "evidence_refs"[0] == 'e';
    UpsertSlot(r, 2, "tags");
    UpsertSlot(r, 3, "scope");
    UpsertSlot(r, 5, "evidence_refs");
  }

  /** The key at position `i` of an upsert payload is found there: the keys before it
      start with other letters. */
  lemma UpsertSlot(r: seq<(string, Value)>, i: nat, k: string)
    requires |r| == 8 && i <= 5 && r[i].0 == k && |k| > 0
    requires forall j :: 0 <= j < 5 ==> |r[j].0| > 0
    requires r[0].0[0] == 'q' && r[1].0[0] == 'a' && r[2].0[0] == 't' && r[3].0[0] == 's' && r[4].0[0] == 't'
    requires k[0] != 'q' && k[0] != 'a' && (i > 2 ==> k[0] != 't') && (i > 3 ==> k[0] != 's') && (i > 4 ==> k[0] != 't')
    ensures Lookup(r, k) == Some(r[i].1)
  {
    forall j | 0 <= j < i ensures |r[j].0| > 0 && r[j].0[0] != k[0] {
      if j == 0 {} else if j == 1 {} else if j == 2 {} else if j == 3 {} else {}
    }
    LookupPastHeads(r, i, k);
  }

  /** The execution keys the validation tool may send. */
  predicate ExecutionKey(k: string)
  {
    k == "exit_code" || k == "stdout_digest" || k == "stderr_digest"
  }

  /** The three execution keys are different texts. */
  lemma ExecutionKeysDistinct()
    ensures "exit_code" != "stdout_digest" && "exit_code" != "stderr_digest" && "stdout_digest" != "stderr_digest"
  {
    var e, o, r := "exit_code", "stdout_digest", "stderr_digest";
    assert e[0] == 'e' && o[0] == 's' && r[0] == 's';
    assert o[3] == 'o' && r[3] == 'e';
  }

  /** `qa_validate_and_update`'s `execution` dict, filled key by key. */
  method Execution(exitCode: Option<int>, stdoutDigest: Option<string>, stderrDigest: Option<string>)
    returns (execution: seq<(string, Value)>)
    ensures Lookup(execution, "exit_code") == if exitCode.Some? then Some(VInt(exitCode.value)) else None
    ensures Lookup(execution, "stdout_digest") == if stdoutDigest.Some? then Some(VStr(stdoutDigest.value)) else None
    ensures Lookup(execution, "stderr_digest") == if stderrDigest.Some? then Some(VStr(stderrDigest.value)) else None
    ensures forall i :: 0 <= i < |execution| ==> ExecutionKey(execution[i].0)
  {
    ExecutionKeysDistinct();
    var exit := if exitCode.Some? then Some(VInt(exitCode.value)) else None;
    var out := if stdoutDigest.Some? then Some(VStr(stdoutDigest.value)) else None;
    execution := [];
    if exitCode.Some? {
      PutExecutionKey(execution, "exit_code", VInt(exitCode.value));
      execution := Put(execution, "exit_code", VInt(exitCode.value));
    }
    assert Lookup(execution, "exit_code") == exit;
    assert Lookup(execution, "stdout_digest").None? && Lookup(execution, "stderr_digest").None?;
    if stdoutDigest.Some? {
      PutExecutionKey(execution, "stdout_digest", VStr(stdoutDigest.value));
      execution := Put(execution, "stdout_digest", VStr(stdoutDigest.value));
    }
    assert Lookup(execution, "exit_code") == exit && Lookup(execution, "stdout_digest") == out;
    assert Lookup(execution, "stderr_digest").None?;
    if stderrDigest.Some? {
      PutExecutionKey(execution, "stderr_digest", VStr(stderrDigest.value));
      execution := Put(execution, "stderr_digest", VStr(stderrDigest.value));
    }
  }

  /** Setting an execution key keeps every key an execution key. */
  lemma PutExecutionKey(entries: seq<(string, Value)>, k: string, v: Value)
    requires ExecutionKey(k)
    requires forall i :: 0 <= i < |entries| ==> ExecutionKey(entries[i].0)
    ensures forall i :: 0 <= i < |Put(entries, k, v)| ==> ExecutionKey(Put(entries, k, v)[i].0)
  {
    var r := Put(entries, k, v);
    forall i | 0 <= i < |r| ensures ExecutionKey(r[i].0) {
      if r[i].0 != k {
        var j :| 0 <= j < |entries| && entries[j] == r[i];
      }
    }
  }

  /** `qa_validate_and_update(...)` sends this payload, `execution` being what
      `Execution` builds. */
  function ValidatePayload(qaId: string, namespace: string, result: string, signalStrength: string, reason: string,
                           evidenceRefs: Value, execution: seq<(string, Value)>): (r: seq<(string, Value)>)
    ensures Lookup(r, "evidence_refs") == Some(if Truthy(evidenceRefs) then evidenceRefs else VList([]))
    ensures Lookup(r, "execution") == Some(VDict(execution))
  {
    var r := ValidateEntries(qaId, namespace, result, signalStrength, reason, evidenceRefs, execution);
    LookupFirst(r, 5, "evidence_refs");
    LookupFirst(r, 6, "execution");
    r
  }

  function ValidateEntries(qaId: string, namespace: string, result: string, signalStrength: string, reason: string,
                           evidenceRefs: Value, execution: seq<(string, Value)>): seq<(string, Value)>
  {
    [("qa_id", VStr(qaId)),
     ("namespace", VStr(namespace)),
     ("result", VStr(result)),
     ("signal_strength", VStr(signalStrength)),
     ("reason", VStr(reason)),
     ("evidence_refs", Or(evidenceRefs, VList([]))),
     ("execution", VDict(execution)),
     ("client", ClientMeta)]
  }
}
