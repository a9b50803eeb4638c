/**
  The reasoning stage of the audit agent (`reason_audit`): one call to the
  auditor endpoint per `kong_data` record, the parsed reply stored in the
  audit report under `"{name}:policy:{name}"`.

  The key is assigned only after the request and its status check succeed, so
  a failed request stores its error object under the key bound last, that of
  the most recent service whose request got through (overwriting that entry),
  and a failed request for the first service raises from inside the handler
  because the key variable is still unbound.
*/
module AuditReasoning {
  import opened Wrappers
  import opened JsonValues
  import opened KongPerception

  /** What one call to the auditor endpoint produced. */
  datatype AuditReply =
    | Answered(body: Json)           // no 4xx or 5xx status, and the body parsed
    | RequestFailed(reason: string)  // the post raised or the status was 4xx or 5xx: before the key is assigned
    | BodyUnparsable(reason: string) // no 4xx or 5xx status, but `response.json()` raised: after the key is assigned

  /** The exception that escapes the stage. */
  datatype AuditException = UnboundLocalError

  /** The auditor endpoint, called with a service name and its plugin collection. */
  type Auditor = (string, set<string>) -> AuditReply

  /** The audit report key of a service. */
  function ReportKey(serviceName: string): (key: string)
    ensures |key| == 2 * |serviceName| + 8
    ensures key[..|serviceName|] == serviceName
  {
    serviceName + ":policy:" + serviceName
  }

  /** Distinct service names get distinct report keys. */
  lemma ReportKeyInjective(a: string, b: string)
    requires ReportKey(a) == ReportKey(b)
    ensures a == b
  {
    var ka, kb := ReportKey(a), ReportKey(b);
    assert |a| == |b|;
    assert a == ka[..|a|] == kb[..|b|] == b;
  }

  /** The object stored when a call fails. */
  function ErrorEntry(reason: string): (entry: Json)
    ensures entry.Obj? && Keys(entry.fields) == ["error"]
    ensures Get(entry.fields, "error") == Some(Str("Failed to parse response: " + reason))
  {
    Obj([("error", Str("Failed to parse response: " + reason))])
  }

  /** The report built so far and the value of the key variable, if it has been bound. */
  datatype Progress = Progress(report: Fields, lastKey: Option<string>)

  const Start := Progress([], None)

  /**
    One iteration of the loop: it raises iff the request failed while no key
    was bound; otherwise the key bound afterwards (the service's own key, or
    the previous one when the request failed) holds this reply's entry, and
    every other key reads as before.
  */
  function Step(p: Progress, serviceName: string, reply: AuditReply): (r: Result<Progress, AuditException>)
    ensures r.Err? <==> reply.RequestFailed? && p.lastKey.None?
    ensures r.Ok? ==> r.value.lastKey == (if reply.RequestFailed? then p.lastKey else Some(ReportKey(serviceName)))
    ensures r.Ok? ==>
      && Get(r.value.report, r.value.lastKey.value) ==
           Some(if reply.Answered? then reply.body else ErrorEntry(reply.reason))
      && forall k :: k != r.value.lastKey.value ==> Get(r.value.report, k) == Get(p.report, k)
  {
    match reply
    case Answered(body) =>
      Ok(Progress(Put(p.report, ReportKey(serviceName), body), Some(ReportKey(serviceName))))
    case BodyUnparsable(reason) =>
      Ok(Progress(Put(p.report, ReportKey(serviceName), ErrorEntry(reason)), Some(ReportKey(serviceName))))
    case RequestFailed(reason) =>
      match p.lastKey
      case None => Err(UnboundLocalError)
      case Some(key) => Ok(Progress(Put(p.report, key, ErrorEntry(reason)), p.lastKey))
  }

  function ReplyTo(auditor: Auditor, rec: ServiceRecord): AuditReply {
    auditor(rec.serviceName, rec.servicePlugins)
  }

  /** The loop over the remaining records, from progress `p`. */
  function Run(records: seq<ServiceRecord>, p: Progress, auditor: Auditor): Result<Progress, AuditException>
    decreases |records|
  {
    if records == [] then Ok(p)
    else
      match Step(p, records[0].serviceName, ReplyTo(auditor, records[0]))
      case Err(e) => Err(e)
      case Ok(q) => Run(records[1..], q, auditor)
  }

  /** The `audit_report` the stage assigns, or the exception it raises. */
  function AuditReport(records: seq<ServiceRecord>, auditor: Auditor): Result<Fields, AuditException> {
    match Run(records, Start, auditor)
    case Ok(p) => Ok(p.report)
    case Err(e) => Err(e)
  }

  /** The loop of `reason_audit` over the `kong_data` records. */
  method AuditServices(records: seq<ServiceRecord>, auditor: Auditor) returns (r: Result<Fields, AuditException>)
    ensures r == AuditReport(records, auditor)
  {
    var report: Fields := [];
    var lastKey: Option<string> := None;
    for i := 0 to |records|
      invariant Run(records, Start, auditor) == Run(records[i..], Progress(report, lastKey), auditor)
    {
      assert records[i..][1..] == records[i + 1..];
      var rec := records[i];
      match auditor(rec.serviceName, rec.servicePlugins)
      case Answered(body) =>
        lastKey := Some(ReportKey(rec.serviceName));
        report := Put(report, lastKey.value, body);
      case BodyUnparsable(reason) =>
        lastKey := Some(ReportKey(rec.serviceName));
        report := Put(report, lastKey.value, ErrorEntry(reason));
      case RequestFailed(reason) =>
        if lastKey.None? {
          return Err(UnboundLocalError);
        }
        report := Put(report, lastKey.value, ErrorEntry(reason));
    }
    assert records[|records|..] == [];
    return Ok(report);
  }

  /** Running the loop over `a + [x]` is running it over `a` and then one more step. */
  lemma {:induction false} RunSnoc(a: seq<ServiceRecord>, x: ServiceRecord, p: Progress, auditor: Auditor)
    ensures Run(a + [x], p, auditor) ==
      match Run(a, p, auditor)
      case Err(e) => Err(e)
      case Ok(q) => Step(q, x.serviceName, ReplyTo(auditor, x))
  {
    if a == [] {
      assert [x][1..] == [];
    } else {
      assert (a + [x])[1..] == a[1..] + [x];
      match Step(p, a[0].serviceName, ReplyTo(auditor, a[0]))
      case Err(e) =>
      case Ok(q) => RunSnoc(a[1..], x, q, auditor);
    }
  }

  /** Every call was answered, or at least its status was not 4xx or 5xx. */
  ghost predicate KeysBound(records: seq<ServiceRecord>, auditor: Auditor) {
    forall i :: 0 <= i < |records| ==> !ReplyTo(auditor, records[i]).RequestFailed?
  }

  /** What the report holds for a record whose call reached the key assignment. */
  function EntryOf(reply: AuditReply): Json
    requires !reply.RequestFailed?
  {
    if reply.Answered? then reply.body else ErrorEntry(reply.reason)
  }

  /** Record `i` is the last one with its service name. */
  ghost predicate LastWithName(records: seq<ServiceRecord>, i: int) {
    0 <= i < |records| && forall j :: i < j < |records| ==> records[j].serviceName != records[i].serviceName
  }

  /** The report keys of the records, in record order. */
  function ServiceKeys(records: seq<ServiceRecord>): (keys: seq<string>)
    ensures |keys| == |records|
    ensures forall i :: 0 <= i < |records| ==> keys[i] == ReportKey(records[i].serviceName)
  {
    seq(|records|, i requires 0 <= i < |records| => ReportKey(records[i].serviceName))
  }

  /** The report has exactly the keys of the records. */
  ghost predicate KeysAreServiceKeys(report: Fields, records: seq<ServiceRecord>) {
    forall k :: k in Keys(report) <==> k in ServiceKeys(records)
  }

  lemma KeysBoundInit(records: seq<ServiceRecord>, auditor: Auditor)
    requires records != [] && KeysBound(records, auditor)
    ensures KeysBound(records[..|records| - 1], auditor)
  {
    var init := records[..|records| - 1];
    forall i | 0 <= i < |init| ensures !ReplyTo(auditor, init[i]).RequestFailed? {
      assert init[i] == records[i];
    }
  }

  /** With no failed request the loop completes and binds the last service's key. */
  lemma {:induction false} RunCompletes(records: seq<ServiceRecord>, auditor: Auditor)
    requires KeysBound(records, auditor)
    ensures Run(records, Start, auditor).Ok?
    ensures Run(records, Start, auditor).value.lastKey ==
      (if records == [] then None else Some(ReportKey(records[|records| - 1].serviceName)))
  {
    if records != [] {
      var init, x := records[..|records| - 1], records[|records| - 1];
      assert records == init + [x];
      KeysBoundInit(records, auditor);
      RunCompletes(init, auditor);
      RunSnoc(init, x, Start, auditor);
      StepBound(Run(init, Start, auditor).value, x, auditor);
    }
  }

  /** Every step of the loop, from a report without repeated keys, keeps it so. */
  lemma {:induction false} RunKeepsDistinct(records: seq<ServiceRecord>, p: Progress, auditor: Auditor)
    requires DistinctKeys(p.report)
    ensures Run(records, p, auditor).Ok? ==> DistinctKeys(Run(records, p, auditor).value.report)
    decreases |records|
  {
    if records != [] {
      var reply := ReplyTo(auditor, records[0]);
      match Step(p, records[0].serviceName, reply)
      case Err(_) =>
      case Ok(q) =>
        var entry := if reply.Answered? then reply.body else ErrorEntry(reply.reason);
        var key := if reply.RequestFailed? then p.lastKey.value else ReportKey(records[0].serviceName);
        PutKeepsDistinct(p.report, key, entry);
        RunKeepsDistinct(records[1..], q, auditor);
    }
  }

  /**
    Whenever the stage completes, the report never repeats a key, whichever
    requests failed; with no failed request it always completes.
  */
  lemma RunDistinctKeys(records: seq<ServiceRecord>, auditor: Auditor)
    ensures AuditReport(records, auditor).Ok? ==> DistinctKeys(AuditReport(records, auditor).value)
    ensures KeysBound(records, auditor) ==> AuditReport(records, auditor).Ok?
  {
    RunKeepsDistinct(records, Start, auditor);
    if KeysBound(records, auditor) {
      RunCompletes(records, auditor);
    }
  }

  /** A step whose request got through writes the record's key and binds it. */
  lemma StepBound(q: Progress, x: ServiceRecord, auditor: Auditor)
    requires !ReplyTo(auditor, x).RequestFailed?
    ensures Step(q, x.serviceName, ReplyTo(auditor, x)) ==
      Ok(Progress(Put(q.report, ReportKey(x.serviceName), EntryOf(ReplyTo(auditor, x))), Some(ReportKey(x.serviceName))))
  {
  }

  /** Writing the key of one more record keeps the report's keys those of the records. */
  lemma KeysAfterPut(report: Fields, records: seq<ServiceRecord>, x: ServiceRecord, v: Json)
    requires KeysAreServiceKeys(report, records)
    ensures KeysAreServiceKeys(Put(report, ReportKey(x.serviceName), v), records + [x])
  {
    var key := ReportKey(x.serviceName);
    PutKeys(report, key, v);
    ServiceKeysSnoc(records, x);
    forall k ensures k in Keys(Put(report, key, v)) <==> k in ServiceKeys(records) + [key] {
      assert k in Keys(report) + [key] <==> k in Keys(report) || k == key;
      assert k in ServiceKeys(records) + [key] <==> k in ServiceKeys(records) || k == key;
    }
  }

  lemma ServiceKeysSnoc(records: seq<ServiceRecord>, x: ServiceRecord)
    ensures ServiceKeys(records + [x]) == ServiceKeys(records) + [ReportKey(x.serviceName)]
  {
    var a, b := ServiceKeys(records + [x]), ServiceKeys(records) + [ReportKey(x.serviceName)];
    forall j | 0 <= j < |a| ensures a[j] == b[j] {
      assert (records + [x])[j] == if j < |records| then records[j] else x;
    }
  }

  /** With no failed request the set of the report's keys is the set of the records' keys. */
  lemma {:induction false} RunKeys(records: seq<ServiceRecord>, auditor: Auditor)
    requires KeysBound(records, auditor)
    ensures Run(records, Start, auditor).Ok?
    ensures KeysAreServiceKeys(Run(records, Start, auditor).value.report, records)
  {
    if records != [] {
      var init, x := records[..|records| - 1], records[|records| - 1];
      assert records == init + [x];
      KeysBoundInit(records, auditor);
      RunKeys(init, auditor);
      RunSnoc(init, x, Start, auditor);
      var q := Run(init, Start, auditor).value;
      StepBound(q, x, auditor);
      KeysAfterPut(q.report, init, x, EntryOf(ReplyTo(auditor, x)));
    }
  }

  /** Each key of the records holds the reply to the last record with that name. */
  ghost predicate HoldsLastEntries(report: Fields, records: seq<ServiceRecord>, auditor: Auditor) {
    forall i :: LastWithName(records, i) ==>
      !ReplyTo(auditor, records[i]).RequestFailed? &&
      Get(report, ReportKey(records[i].serviceName)) == Some(EntryOf(ReplyTo(auditor, records[i])))
  }

  /** Writing the reply to one more record keeps every key holding the reply to its last record. */
  lemma LastEntriesAfterPut(report: Fields, records: seq<ServiceRecord>, x: ServiceRecord, auditor: Auditor)
    requires HoldsLastEntries(report, records, auditor) && !ReplyTo(auditor, x).RequestFailed?
    ensures HoldsLastEntries(Put(report, ReportKey(x.serviceName), EntryOf(ReplyTo(auditor, x))), records + [x], auditor)
  {
    var all := records + [x];
    var key := ReportKey(x.serviceName);
    var after := Put(report, key, EntryOf(ReplyTo(auditor, x)));
    forall i | LastWithName(all, i)
      ensures !ReplyTo(auditor, all[i]).RequestFailed? &&
              Get(after, ReportKey(all[i].serviceName)) == Some(EntryOf(ReplyTo(auditor, all[i])))
    {
      if i < |records| {
        assert all[i] == records[i];
        assert all[|records|] == x;
        if ReportKey(records[i].serviceName) == key {
          ReportKeyInjective(records[i].serviceName, x.serviceName);
        }
        assert forall j :: i < j < |records| ==> records[j] == all[j];
        assert LastWithName(records, i);
      }
    }
  }

  /** With no failed request each key holds the reply to the last service with that name. */
  lemma {:induction false} RunLastEntries(records: seq<ServiceRecord>, auditor: Auditor)
    requires KeysBound(records, auditor)
    ensures Run(records, Start, auditor).Ok?
    ensures HoldsLastEntries(Run(records, Start, auditor).value.report, records, auditor)
  {
    if records != [] {
      var init, x := records[..|records| - 1], records[|records| - 1];
      assert records == init + [x];
      KeysBoundInit(records, auditor);
      RunLastEntries(init, auditor);
      RunSnoc(init, x, Start, auditor);
      var q := Run(init, Start, auditor).value;
      StepBound(q, x, auditor);
      LastEntriesAfterPut(q.report, init, x, auditor);
    }
  }

  /**
    When no request fails, the stage completes: the report has exactly one key
    per distinct service name, without repetition, and under each key the
    reply of the last service with that name (its body, or the error object
    when the body did not parse).
  */
  lemma ReportWhenKeysBound(records: seq<ServiceRecord>, auditor: Auditor)
    requires KeysBound(records, auditor)
    ensures AuditReport(records, auditor).Ok?
    ensures var report := AuditReport(records, auditor).value;
      && DistinctKeys(report)
      && KeysAreServiceKeys(report, records)
      && (forall i :: LastWithName(records, i) ==>
            Get(report, ReportKey(records[i].serviceName)) == Some(EntryOf(ReplyTo(auditor, records[i]))))
  {
    RunDistinctKeys(records, auditor);
    RunKeys(records, auditor);
    RunLastEntries(records, auditor);
  }

  /** Once a key is bound the loop never raises, and a key stays bound. */
  lemma {:induction false} BoundRunCompletes(records: seq<ServiceRecord>, p: Progress, auditor: Auditor)
    requires p.lastKey.Some?
    ensures Run(records, p, auditor).Ok? && Run(records, p, auditor).value.lastKey.Some?
    decreases |records|
  {
    if records != [] {
      var q := Step(p, records[0].serviceName, ReplyTo(auditor, records[0])).value;
      BoundRunCompletes(records[1..], q, auditor);
    }
  }

  /**
    The stage raises iff the request for the first service fails: every later
    failure finds the key variable bound.
  */
  lemma RaisesIffFirstRequestFails(records: seq<ServiceRecord>, auditor: Auditor)
    ensures AuditReport(records, auditor).Err? <==> records != [] && ReplyTo(auditor, records[0]).RequestFailed?
    ensures AuditReport(records, auditor).Err? ==> AuditReport(records, auditor) == Err(UnboundLocalError)
  {
    if records != [] && !ReplyTo(auditor, records[0]).RequestFailed? {
      var q := Step(Start, records[0].serviceName, ReplyTo(auditor, records[0])).value;
      BoundRunCompletes(records[1..], q, auditor);
    }
  }

  /**
    The position of the last record before `i` whose request got through (and
    so bound the key variable), or None when every request before `i` failed.
  */
  function LastBound(records: seq<ServiceRecord>, auditor: Auditor, i: nat): (j: Option<nat>)
    requires i <= |records|
    ensures j.None? <==> forall m :: 0 <= m < i ==> ReplyTo(auditor, records[m]).RequestFailed?
    ensures j.Some? ==>
      && j.value < i
      && !ReplyTo(auditor, records[j.value]).RequestFailed?
      && forall m :: j.value < m < i ==> ReplyTo(auditor, records[m]).RequestFailed?
  {
    if i == 0 then None
    else if !ReplyTo(auditor, records[i - 1]).RequestFailed? then Some(i - 1)
    else LastBound(records, auditor, i - 1)
  }

  /** After the records before `i`, the key variable holds the key of `LastBound`. */
  lemma {:induction false} RunLastKey(records: seq<ServiceRecord>, auditor: Auditor, i: nat)
    requires i <= |records|
    ensures Run(records[..i], Start, auditor).Ok? ==>
      Run(records[..i], Start, auditor).value.lastKey ==
        (match LastBound(records, auditor, i)
         case None => None
         case Some(j) => Some(ReportKey(records[j].serviceName)))
  {
    if i > 0 {
      assert records[..i] == records[..i - 1] + [records[i - 1]];
      RunSnoc(records[..i - 1], records[i - 1], Start, auditor);
      RunLastKey(records, auditor, i - 1);
    }
  }

  /**
    A failed request for service `i`, when the first request got through,
    stores its error object under the key of the last earlier service whose
    request got through, and the loop goes on.
  */
  lemma FailedRequestOverwritesLastBound(records: seq<ServiceRecord>, auditor: Auditor, i: nat)
    requires i < |records| && ReplyTo(auditor, records[i]).RequestFailed?
    requires !ReplyTo(auditor, records[0]).RequestFailed?
    ensures LastBound(records, auditor, i).Some?
    ensures AuditReport(records[..i + 1], auditor).Ok?
    ensures Get(AuditReport(records[..i + 1], auditor).value, ReportKey(records[LastBound(records, auditor, i).value].serviceName))
      == Some(ErrorEntry(ReplyTo(auditor, records[i]).reason))
  {
    var init := records[..i];
    assert init[0] == records[0];
    RaisesIffFirstRequestFails(init, auditor);
    RunLastKey(records, auditor, i);
    assert records[..i + 1] == init + [records[i]];
    RunSnoc(init, records[i], Start, auditor);
  }

  /**
    A failed request for service `i > 0`, after every earlier request got
    through, stores its error object under the key of service `i - 1` (the
    key bound last), and
    service `i` gets no key of its own unless an earlier service shares its name.
  */
  lemma RequestFailureOverwritesPrevious(records: seq<ServiceRecord>, auditor: Auditor, i: nat)
    requires 0 < i < |records|
    requires KeysBound(records[..i], auditor)
    requires ReplyTo(auditor, records[i]).RequestFailed?
    ensures AuditReport(records[..i + 1], auditor).Ok?
    ensures var report := AuditReport(records[..i + 1], auditor).value;
      && Get(report, ReportKey(records[i - 1].serviceName)) == Some(ErrorEntry(ReplyTo(auditor, records[i]).reason))
      && (ReportKey(records[i].serviceName) in Keys(report) <==>
            exists j :: 0 <= j < i && records[j].serviceName == records[i].serviceName)
  {
    var init := records[..i];
    assert records[..i + 1] == init + [records[i]];
    RunCompletes(init, auditor);
    RunKeys(init, auditor);
    RunSnoc(init, records[i], Start, auditor);
    var q := Run(init, Start, auditor).value;
    var previous := ReportKey(records[i - 1].serviceName);
    assert init[i - 1] == records[i - 1];
    assert ServiceKeys(init)[i - 1] == previous;
    var entry := ErrorEntry(ReplyTo(auditor, records[i]).reason);
    assert AuditReport(records[..i + 1], auditor) == Ok(Put(q.report, previous, entry));
    PutKeys(q.report, previous, entry);
    ServiceKeyMembership(init, records[i].serviceName);
    assert forall j :: 0 <= j < i ==> init[j] == records[j];
  }

  /** A service name has a key among the records' keys iff some record has that name. */
  lemma ServiceKeyMembership(records: seq<ServiceRecord>, name: string)
    ensures ReportKey(name) in ServiceKeys(records) <==> exists j :: 0 <= j < |records| && records[j].serviceName == name
  {
    if ReportKey(name) in ServiceKeys(records) {
      var j :| 0 <= j < |records| && ServiceKeys(records)[j] == ReportKey(name);
      ReportKeyInjective(name, records[j].serviceName);
    }
    if exists j :: 0 <= j < |records| && records[j].serviceName == name {
      var j :| 0 <= j < |records| && records[j].serviceName == name;
      assert ServiceKeys(records)[j] == ReportKey(name);
    }
  }
}
