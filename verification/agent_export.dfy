/**
 * The agent-file export modal: the agent-list normalizer applied to the
 * backend's listing response, the `.md` to `.pdf` renaming rule, and the
 * export status flow driven by the remote population call and a close timer.
 */
module AgentExport {

  /** A JSON-like value as the listing endpoint may return it. An object keeps
      its properties in the order `Object.values` enumerates them. */
  datatype JsValue =
    | Undefined
    | Null
    | Bool(b: bool)
    | Num(n: int)
    | Str(s: string)
    | Arr(items: seq<JsValue>)
    | Obj(props: seq<(string, JsValue)>)

  /** JavaScript truthiness (`res && ...`). */
  predicate Truthy(v: JsValue)
  {
    match v
    case Undefined => false
    case Null => false
    case Bool(b) => b
    case Num(n) => n != 0
    case Str(s) => s != ""
    case Arr(_) => true
    case Obj(_) => true
  }

  /** `typeof v === 'object'`, which holds for null as well. */
  predicate IsObjectType(v: JsValue)
  {
    v.Null? || v.Arr? || v.Obj?
  }

  /** The value stored under `key` in a property list, undefined when absent. */
  function Lookup(props: seq<(string, JsValue)>, key: string): (v: JsValue)
    ensures v != Undefined ==> exists i :: 0 <= i < |props| && props[i] == (key, v)
  {
    if props == [] then Undefined
    else if props[0].0 == key then props[0].1
    else Lookup(props[1..], key)
  }

  /** Property read `v.key`: anything but an object reads as undefined. */
  function Property(v: JsValue, key: string): JsValue
  {
    if v.Obj? then Lookup(v.props, key) else Undefined
  }

  /** `Object.values` of an object's property list. */
  function Values(props: seq<(string, JsValue)>): (vs: seq<JsValue>)
    ensures |vs| == |props|
    ensures forall i :: 0 <= i < |props| ==> vs[i] == props[i].1
  {
    if props == [] then [] else [props[0].1] + Values(props[1..])
  }

  /** What one value contributes to `Array.prototype.flat()` with depth 1. */
  function Spread(v: JsValue): seq<JsValue>
  {
    if v.Arr? then v.items else [v]
  }

  /** `vs.flat()`: arrays are spliced in one level deep, anything else is kept. */
  function Flat(vs: seq<JsValue>): seq<JsValue>
  {
    if vs == [] then [] else Spread(vs[0]) + Flat(vs[1..])
  }

  /** The agent list built from a resolved listing response: an array is taken
      as it is, then an array under `agents`, then one under `agentnames`, then
      the one-level flattening of any object's values, and otherwise nothing. */
  function Normalize(res: JsValue): seq<JsValue>
  {
    if res.Arr? then res.items
    else if Truthy(res) && Property(res, "agents").Arr? then Property(res, "agents").items
    else if Truthy(res) && Property(res, "agentnames").Arr? then Property(res, "agentnames").items
    else if Truthy(res) && IsObjectType(res) then Flat(Values(res.props))
    else []
  }

  /** The outcome of an awaited collaborator call. */
  datatype Fetch<T> = Resolved(value: T) | Rejected

  /** The agent options after the listing call settles: a rejected call
      leaves an empty list. */
  function AgentsFromFetch(fetched: Fetch<JsValue>): seq<JsValue>
  {
    match fetched
    case Resolved(res) => Normalize(res)
    case Rejected => []
  }

  lemma NormalizeArrayUnchanged(items: seq<JsValue>)
    ensures Normalize(Arr(items)) == items
  {
  }

  /** An array under `agents` wins over everything else in the object. */
  lemma {:induction false} AgentsKeyWins(props: seq<(string, JsValue)>, i: nat, items: seq<JsValue>)
    requires i < |props| && props[i] == ("agents", Arr(items))
    requires forall k :: 0 <= k < i ==> props[k].0 != "agents"
    ensures Normalize(Obj(props)) == items
  {
    LookupFirst(props, i, "agents");
  }

  /** Without an array under `agents`, an array under `agentnames` is taken. */
  lemma {:induction false} AgentNamesKeySecond(props: seq<(string, JsValue)>, i: nat, items: seq<JsValue>)
    requires !Lookup(props, "agents").Arr?
    requires i < |props| && props[i] == ("agentnames", Arr(items))
    requires forall k :: 0 <= k < i ==> props[k].0 != "agentnames"
    ensures Normalize(Obj(props)) == items
  {
    LookupFirst(props, i, "agentnames");
  }

  /** The first property with a given key is the one read. */
  lemma {:induction false} LookupFirst(props: seq<(string, JsValue)>, i: nat, key: string)
    requires i < |props| && props[i].0 == key
    requires forall k :: 0 <= k < i ==> props[k].0 != key
    ensures Lookup(props, key) == props[i].1
  {
    if i > 0 {
      LookupFirst(props[1..], i - 1, key);
    }
  }

  /** Any other object, including one whose `agents` is present but not an
      array, falls through to the one-level flattening of its values. */
  lemma GenericObjectFlattened(props: seq<(string, JsValue)>)
    requires !Lookup(props, "agents").Arr? && !Lookup(props, "agentnames").Arr?
    ensures Normalize(Obj(props)) == Flat(Values(props))
  {
  }

  /** Null, undefined, every primitive and a rejected call all give no agents. */
  lemma NonObjectGivesNothing(fetched: Fetch<JsValue>)
    requires fetched.Resolved? ==> !fetched.value.Arr? && !fetched.value.Obj?
    ensures AgentsFromFetch(fetched) == []
  {
  }

  /** Flattening distributes over concatenation, so the result is the
      concatenation of the values' contributions in key order. */
  lemma {:induction false} FlatAppend(a: seq<JsValue>, b: seq<JsValue>)
    ensures Flat(a + b) == Flat(a) + Flat(b)
  {
    if a == [] {
      assert a + b == b;
    } else {
      assert (a + b)[1..] == a[1..] + b;
      FlatAppend(a[1..], b);
    }
  }

  /** An element is in the flattening exactly when it is a non-array value
      or an element of an array value. */
  lemma {:induction false} FlatMembership(vs: seq<JsValue>, x: JsValue)
    ensures x in Flat(vs) <==>
      exists i :: 0 <= i < |vs| && ((vs[i].Arr? && x in vs[i].items) || (!vs[i].Arr? && vs[i] == x))
  {
    if vs != [] {
      FlatMembership(vs[1..], x);
      assert forall i :: 1 <= i < |vs| ==> vs[i] == vs[1..][i - 1];
    }
  }

  predicate IsString(v: JsValue)
  {
    v.Str?
  }

  /** A value the backend is meant to send: a string or an array of strings. */
  predicate StringOrStrings(v: JsValue)
  {
    v.Str? || (v.Arr? && forall k :: 0 <= k < |v.items| ==> IsString(v.items[k]))
  }

  /** When every value of the object is a string or a list of strings, the
      flattened agent list is a flat list of strings. */
  lemma {:induction false} FlatOfStringsIsStrings(vs: seq<JsValue>)
    requires forall i :: 0 <= i < |vs| ==> StringOrStrings(vs[i])
    ensures forall k :: 0 <= k < |Flat(vs)| ==> IsString(Flat(vs)[k])
  {
    if vs != [] {
      FlatOfStringsIsStrings(vs[1..]);
    }
  }

  /** The example of a generic object of two teams. */
  lemma TeamsExample()
    ensures Normalize(Obj([("teamA", Arr([Str("a"), Str("b")])), ("teamB", Arr([Str("c")]))]))
         == [Str("a"), Str("b"), Str("c")]
  {
    var props := [("teamA", Arr([Str("a"), Str("b")])), ("teamB", Arr([Str("c")]))];
    assert Values(props) == [Arr([Str("a"), Str("b")]), Arr([Str("c")])];
    assert Flat(Values(props)) == [Str("a"), Str("b")] + Flat([Arr([Str("c")])]);
  }

  // ---------------------------------------------------------------------------
  // Export file name

  /** `name.toLowerCase().endsWith('.md')`, which is also what `/\.md$/i` matches. */
  predicate HasMdExtension(name: string)
  {
    |name| >= 3 && name[|name| - 3] == '.'
    && (name[|name| - 2] == 'm' || name[|name| - 2] == 'M')
    && (name[|name| - 1] == 'd' || name[|name| - 1] == 'D')
  }

  /** The file name sent for export: a trailing `.md` in any case becomes `.pdf`. */
  function ExportFileName(name: string): (r: string)
    ensures HasMdExtension(name) ==>
      |r| == |name| + 1 && r[..|name| - 3] == name[..|name| - 3] && r[|name| - 3..] == ".pdf"
    ensures !HasMdExtension(name) ==> r == name
    ensures !HasMdExtension(r)
  {
    if HasMdExtension(name) then name[..|name| - 3] + ".pdf" else name
  }

  /** Renaming twice is renaming once. */
  lemma ExportFileNameIdempotent(name: string)
    ensures ExportFileName(ExportFileName(name)) == ExportFileName(name)
  {
  }

  lemma ExportFileNameExamples()
    ensures ExportFileName("report.md") == "report.pdf"
    ensures ExportFileName("report.MD") == "report.pdf"
    ensures ExportFileName("report.txt") == "report.txt"
  {
    assert "report.md"[..6] == "report";
    assert "report.MD"[..6] == "report";
  }

  // ---------------------------------------------------------------------------
  // Export status flow

  const ScopeId := "001"
  const ExportingStatus := "Exporting to excel ..Pls wait."
  const SuccessStatus := "Data uploaded successfully."
  const FailurePrefix := "Failed to export data: "
  /** Delay of the success timer; the model has an explicit timer step instead. */
  const CloseDelayMs := 1500

  /** What `catch (e)` receives: an error object with a message and its
      string form, or any other thrown value with its string form. */
  datatype Thrown = ErrorObject(message: string, text: string) | OtherThrown(text: string)

  /** `e?.message || e`: the message when it is a non-empty string, the thrown
      value itself otherwise. */
  function FailureText(e: Thrown): string
  {
    if e.ErrorObject? && e.message != "" then e.message else e.text
  }

  /** The arguments of one call to the remote population endpoint. */
  datatype ExportRequest = ExportRequest(scopeId: string, agent: string, fileName: string)

  /** How the awaited population call settles. */
  datatype ExportOutcome = Uploaded | Threw(e: Thrown)

  class ExportModal {
    var agentOptions: seq<JsValue>
    var exportStatus: string
    /** Population calls issued and not yet settled. */
    var inFlight: nat
    /** Close timers armed by a success and not yet fired. */
    var timersPending: nat
    /** How many times `onClose` has been called. */
    var closeCalls: nat

    constructor ()
      ensures agentOptions == [] && exportStatus == ""
      ensures inFlight == 0 && timersPending == 0 && closeCalls == 0
    {
      agentOptions := [];
      exportStatus := "";
      inFlight := 0;
      timersPending := 0;
      closeCalls := 0;
    }

    /** The listing effect: when the modal is open, the settled listing call
        replaces the agent options. */
    method LoadAgents(open: bool, fetched: Fetch<JsValue>)
      modifies this`agentOptions
      ensures agentOptions == if open then AgentsFromFetch(fetched) else old(agentOptions)
    {
      if open {
        match fetched {
          case Resolved(res) =>
            agentOptions := Normalize(res);
          case Rejected =>
            agentOptions := [];
        }
      }
    }

    /** The export click up to the awaited call: the status says that the
        export runs, and the request names the renamed file. */
    method BeginExport(selectedAgent: string, fileName: string) returns (request: ExportRequest)
      modifies this`exportStatus, this`inFlight
      ensures exportStatus == ExportingStatus
      ensures inFlight == old(inFlight) + 1
      ensures request == ExportRequest(ScopeId, selectedAgent, ExportFileName(fileName))
    {
      exportStatus := ExportingStatus;
      var fileNameToExport := fileName;
      if HasMdExtension(fileNameToExport) {
        fileNameToExport := fileNameToExport[..|fileNameToExport| - 3] + ".pdf";
      }
      request := ExportRequest(ScopeId, selectedAgent, fileNameToExport);
      inFlight := inFlight + 1;
    }

    /** The awaited call settles: success reports the upload and arms the
        close timer; failure reports the error and arms nothing. */
    method SettleExport(outcome: ExportOutcome)
      requires inFlight > 0
      modifies this`exportStatus, this`inFlight, this`timersPending
      ensures inFlight == old(inFlight) - 1
      ensures outcome.Uploaded? ==> exportStatus == SuccessStatus && timersPending == old(timersPending) + 1
      ensures outcome.Threw? ==>
        exportStatus == FailurePrefix + FailureText(outcome.e) && timersPending == old(timersPending)
    {
      inFlight := inFlight - 1;
      match outcome {
        case Uploaded =>
          exportStatus := SuccessStatus;
          timersPending := timersPending + 1;
        case Threw(e) =>
          exportStatus := FailurePrefix + FailureText(e);
      }
    }

    /** A close timer fires after its delay: the status is cleared and
        `onClose` is called once. */
    method FireCloseTimer()
      requires timersPending > 0
      modifies this`exportStatus, this`timersPending, this`closeCalls
      ensures exportStatus == ""
      ensures timersPending == old(timersPending) - 1
      ensures closeCalls == old(closeCalls) + 1
    {
      exportStatus := "";
      closeCalls := closeCalls + 1;
      timersPending := timersPending - 1;
    }
  }

  /** One export whose population call succeeds, watched from a fresh modal:
      the status reads exporting, then success, then empty, and the modal is
      closed exactly once, by the timer. */
  method SuccessfulExport(selectedAgent: string, fileName: string)
    returns (request: ExportRequest, statuses: seq<string>, closes: nat)
    ensures request == ExportRequest(ScopeId, selectedAgent, ExportFileName(fileName))
    ensures statuses == [ExportingStatus, SuccessStatus, ""]
    ensures closes == 1
  {
    var modal := new ExportModal();
    request := modal.BeginExport(selectedAgent, fileName);
    statuses := [modal.exportStatus];
    modal.SettleExport(Uploaded);
    statuses := statuses + [modal.exportStatus];
    modal.FireCloseTimer();
    statuses := statuses + [modal.exportStatus];
    closes := modal.closeCalls;
  }

  /** One export whose population call throws, watched from a fresh modal:
      the status reads exporting, then the failure message, no timer is armed
      and so `onClose` is never called. */
  method FailedExport(selectedAgent: string, fileName: string, e: Thrown)
    returns (statuses: seq<string>, closes: nat, timers: nat)
    ensures statuses == [ExportingStatus, FailurePrefix + FailureText(e)]
    ensures closes == 0 && timers == 0
  {
    var modal := new ExportModal();
    var _ := modal.BeginExport(selectedAgent, fileName);
    statuses := [modal.exportStatus];
    modal.SettleExport(Threw(e));
    statuses := statuses + [modal.exportStatus];
    closes := modal.closeCalls;
    timers := modal.timersPending;
  }

  lemma TimeoutFailureMessage()
    ensures FailurePrefix + FailureText(ErrorObject("timeout", "Error: timeout"))
         == "Failed to export data: timeout"
  {
  }
}
