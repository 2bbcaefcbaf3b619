/** The external-client adapter of the GrpcKind controller: Observe classifies the remote
    list as absent, stale or current; Create, Update and Delete turn the resource into
    requests to the list service. Each remote call's reply is a parameter. */
module Grpckind {
  import opened Types
  import opened ListService
  import opened Strings

  const ErrNotGrpcKind: string := "managed resource is not a GrpcKind custom resource"

  /** The phrase that marks a remote error as "the list is absent". */
  const NotFoundText: string := "does not exist"

  const StatusSuccess: string := "SUCCESS"

  type ConnectionDetails = map<string, seq<uint8>>

  /** What Observe reports to the reconciler; connectionDetails is None for a nil map. */
  datatype ExternalObservation = ExternalObservation(
    resourceExists: bool,
    resourceUpToDate: bool,
    connectionDetails: Option<ConnectionDetails>)

  datatype ExternalCreation = ExternalCreation(connectionDetails: Option<ConnectionDetails>)

  datatype ExternalUpdate = ExternalUpdate(connectionDetails: Option<ConnectionDetails>)

  /** How a call ends: it returns a value and an error, or it panics on a nil response. */
  datatype Outcome<T> = Returned(value: T, err: Option<Error>) | Panicked

  /** The three-way classification Observe makes of the remote list. */
  datatype Verdict = Absent | PresentStale | PresentCurrent

  /** The step the managed reconciler takes on an observation. */
  datatype Action = CallCreate | CallUpdate | NoAction

  /** What Create does once its request has been answered. */
  datatype CreateStep = Swallowed | Recorded(status: string) | DereferencesNil

  function NotGrpcKind(): Error {
    Error(ErrNotGrpcKind)
  }

  /** The error is present and its message contains "does not exist". */
  predicate IsNotFound(err: Option<Error>) {
    err.Some? && Contains(err.value.message, NotFoundText)
  }

  /** reflect.DeepEqual on two int32 slices: both nil or both non-nil, same length,
      equal element by element in order. */
  predicate DeepEqual(a: Slice, b: Slice) {
    && a.Nil? == b.Nil?
    && |a.Elements()| == |b.Elements()|
    && forall i :: 0 <= i < |a.Elements()| ==> a.Elements()[i] == b.Elements()[i]
  }

  /** Deep equality of slices is exactly equality of the modelled values: order matters
      and a nil slice differs from an empty non-nil one. */
  lemma DeepEqualIsIdentity(a: Slice, b: Slice)
    ensures DeepEqual(a, b) <==> a == b
  {
    if DeepEqual(a, b) {
      assert a.Elements() == b.Elements();
    }
  }

  /** The classification Observe makes from the lookup's reply and the desired items. */
  function Classify(lookup: Reply<GetListResp>, desired: Slice): (v: Verdict)
    ensures v == Absent <==> IsNotFound(lookup.err)
    ensures v == PresentStale <==>
      !IsNotFound(lookup.err) && lookup.resp.Some? && lookup.resp.value.items != desired
    ensures lookup.resp.None? && !IsNotFound(lookup.err) ==> v == PresentCurrent
  {
    if IsNotFound(lookup.err) then Absent
    else if lookup.resp.None? then PresentCurrent
    else
      DeepEqualIsIdentity(lookup.resp.value.items, desired);
      if !DeepEqual(lookup.resp.value.items, desired) then PresentStale else PresentCurrent
  }

  /** The observation Observe returns for a verdict: an absent list is reported as
      not existing, a stale one as not up to date, and no connection details are published. */
  function ObservationOf(v: Verdict): (o: ExternalObservation)
    ensures o.resourceExists <==> v != Absent
    ensures o.resourceUpToDate <==> v != PresentStale
    ensures o.connectionDetails == Some(map[])
  {
    match v
    case Absent => ExternalObservation(false, true, Some(map[]))
    case PresentStale => ExternalObservation(true, false, Some(map[]))
    case PresentCurrent => ExternalObservation(true, true, Some(map[]))
  }

  /** The managed reconciler creates a missing resource and updates a stale one. */
  function NextAction(o: ExternalObservation): Action {
    if !o.resourceExists then CallCreate
    else if !o.resourceUpToDate then CallUpdate
    else NoAction
  }

  /** Observe's report drives the reconciler through the intended state machine:
      absent leads to Create, stale to Update, current to nothing. */
  lemma ActionFollowsVerdict(v: Verdict)
    ensures NextAction(ObservationOf(v)) ==
      match v
      case Absent => CallCreate
      case PresentStale => CallUpdate
      case PresentCurrent => NoAction
  {
  }

  /** Observe marks the resource Available: past the absent check, with a response whose status is SUCCESS. */
  predicate MarksAvailable(lookup: Reply<GetListResp>) {
    !IsNotFound(lookup.err) && lookup.resp.Some? && lookup.resp.value.status == StatusSuccess
  }

  /** Observe: looks the list up by name and classifies it; sets the Ready condition to
      Available when the lookup succeeded with status SUCCESS and touches nothing else. */
  method Observe(mg: Managed, lookup: Reply<GetListResp>)
    returns (req: Option<GetListReq>, obs: ExternalObservation, err: Option<Error>)
    modifies mg.Objects()
    ensures mg.OtherKind? ==>
      req == None && obs == ExternalObservation(false, false, None) && err == Some(NotGrpcKind())
    ensures mg.GrpcKindResource? ==>
      && req == Some(GetListReq(mg.cr.forProvider.name))
      && obs == ObservationOf(Classify(lookup, mg.cr.forProvider.listItems))
      && err == None
      && mg.cr.forProvider == old(mg.cr.forProvider)
      && mg.cr.atProvider == old(mg.cr.atProvider)
      && mg.cr.ready == if MarksAvailable(lookup) then Some(Available) else old(mg.cr.ready)
  {
    if mg.OtherKind? {
      return None, ExternalObservation(false, false, None), Some(NotGrpcKind());
    }
    var cr := mg.cr;
    req := Some(GetListReq(cr.forProvider.name));
    if lookup.err.Some? && Contains(lookup.err.value.message, NotFoundText) {
      return req, ExternalObservation(false, true, Some(map[])), None;
    }
    if lookup.resp.Some? && lookup.resp.value.status == StatusSuccess {
      cr.ready := Some(Available);
    }
    if lookup.resp.Some? && !DeepEqual(lookup.resp.value.items, cr.forProvider.listItems) {
      return req, ExternalObservation(true, false, Some(map[])), None;
    }
    return req, ExternalObservation(true, true, Some(map[])), None;
  }

  /** A lookup error whose message carries "does not exist" anywhere, for instance behind
      a status-code prefix, makes Observe report the list as absent, whatever else came back. */
  lemma ObserveNotFoundInContext(p: string, q: string, resp: Option<GetListResp>, desired: Slice)
    ensures Classify(Reply(Some(Error(p + NotFoundText + q)), resp), desired) == Absent
  {
    assert Contains(NotFoundText, NotFoundText);
    ContainsInContext(p, NotFoundText, q, NotFoundText);
  }

  /** With a generated client, a lookup error other than "does not exist" is never
      surfaced: Observe reports the list as existing and up to date. */
  lemma ObserveSwallowsLookupError(lookup: Reply<GetListResp>, desired: Slice)
    requires lookup.FromGeneratedClient()
    requires lookup.err.Some? && !IsNotFound(lookup.err)
    ensures Classify(lookup, desired) == PresentCurrent
    ensures ObservationOf(Classify(lookup, desired)) == ExternalObservation(true, true, Some(map[]))
    ensures !MarksAvailable(lookup)
  {
  }

  /** A desired list written as an explicit empty list never matches a remote reply whose
      items are nil: Observe reports it stale on every cycle, although no item differs. */
  lemma EmptyDesiredAgainstNilIsStale(lookup: Reply<GetListResp>)
    requires !IsNotFound(lookup.err) && lookup.resp.Some? && lookup.resp.value.items == Nil
    ensures lookup.resp.value.items.Elements() == NonNil([]).Elements()
    ensures Classify(lookup, NonNil([])) == PresentStale
  {
  }

  /** Once the remote reports exactly the items Update sent, Observe reports the list current. */
  lemma ObserveAfterUpdateIsCurrent(p: GrpcKindParameters, status: string)
    ensures Classify(Reply(None, Some(GetListResp(status, p.listItems))), p.listItems) == PresentCurrent
  {
  }

  /** Create blanks a present description and leaves an absent one absent. */
  function BlankDescription(d: Option<string>): (r: Option<string>)
    ensures r.Some? <==> d.Some?
    ensures r.Some? ==> r.value == ""
  {
    if d.Some? then Some("") else None
  }

  /** What Create does with CreateList's reply: an error without "does not exist" is
      swallowed; otherwise the response's status is recorded, or a nil response is dereferenced. */
  function CreateStepOf(reply: Reply<CreateListResp>): (c: CreateStep)
    ensures c == Swallowed <==> reply.err.Some? && !IsNotFound(reply.err)
    ensures c.Recorded? <==> !(reply.err.Some? && !IsNotFound(reply.err)) && reply.resp.Some?
    ensures c.Recorded? ==> c.status == reply.resp.value.status
  {
    if reply.err.Some? && !IsNotFound(reply.err) then Swallowed
    else if reply.resp.None? then DereferencesNil
    else Recorded(reply.resp.value.status)
  }

  /** With a generated client, Create never reports an error from the remote, records a
      status exactly when the call succeeded, and panics on a "does not exist" error. */
  lemma CreateStepUnderGeneratedClient(reply: Reply<CreateListResp>)
    requires reply.FromGeneratedClient()
    ensures CreateStepOf(reply).Recorded? <==> reply.err.None?
    ensures CreateStepOf(reply) == DereferencesNil <==> IsNotFound(reply.err)
    ensures CreateStepOf(reply) == Swallowed <==> reply.err.Some? && !IsNotFound(reply.err)
  {
  }

  /** Create: blanks a present description, asks for a list with the resource's name and an
      empty description, and records the returned status unless the error is swallowed or
      the response is nil. It never returns an error from the remote. */
  method Create(mg: Managed, reply: Reply<CreateListResp>)
    returns (req: Option<CreateListReq>, out: Outcome<ExternalCreation>)
    modifies mg.Objects()
    ensures mg.OtherKind? ==>
      req == None && out == Returned(ExternalCreation(None), Some(NotGrpcKind()))
    ensures mg.GrpcKindResource? ==>
      && req == Some(CreateListReq(old(mg.cr.forProvider.name), ""))
      && mg.cr.forProvider ==
           old(mg.cr.forProvider).(description := BlankDescription(old(mg.cr.forProvider.description)))
      && mg.cr.ready == old(mg.cr.ready)
      && match CreateStepOf(reply)
         case Swallowed =>
           mg.cr.atProvider == old(mg.cr.atProvider) && out == Returned(ExternalCreation(Some(map[])), None)
         case Recorded(s) =>
           mg.cr.atProvider == GrpcKindObservation(s) && out == Returned(ExternalCreation(Some(map[])), None)
         case DereferencesNil =>
           mg.cr.atProvider == old(mg.cr.atProvider) && out == Panicked
  {
    if mg.OtherKind? {
      return None, Returned(ExternalCreation(None), Some(NotGrpcKind()));
    }
    var cr := mg.cr;
    var description := "";
    if cr.forProvider.description.Some? {
      cr.forProvider := cr.forProvider.(description := Some(description));
    }
    req := Some(CreateListReq(cr.forProvider.name, description));
    if reply.err.Some? && !Contains(reply.err.value.message, NotFoundText) {
      return req, Returned(ExternalCreation(Some(map[])), None);
    }
    if reply.resp.None? {
      return req, Panicked;
    }
    cr.atProvider := GrpcKindObservation(reply.resp.value.status);
    out := Returned(ExternalCreation(Some(map[])), None);
  }

  /** Update: sends the resource's name and its whole desired item list, unchanged, and
      passes the remote error through. The resource is not modified. */
  method Update(mg: Managed, reply: Reply<UpdateListItemsResp>)
    returns (req: Option<UpdateListItemsReq>, upd: ExternalUpdate, err: Option<Error>)
    ensures mg.OtherKind? ==> req == None && upd == ExternalUpdate(None) && err == Some(NotGrpcKind())
    ensures mg.GrpcKindResource? ==>
      && req == Some(UpdateListItemsReq(mg.cr.forProvider.name, mg.cr.forProvider.listItems))
      && upd == ExternalUpdate(Some(map[]))
      && err == reply.err
  {
    if mg.OtherKind? {
      return None, ExternalUpdate(None), Some(NotGrpcKind());
    }
    var cr := mg.cr;
    req := Some(UpdateListItemsReq(cr.forProvider.name, cr.forProvider.listItems));
    if reply.err.Some? {
      return req, ExternalUpdate(Some(map[])), reply.err;
    }
    return req, ExternalUpdate(Some(map[])), None;
  }

  /** Delete: asks to delete the list with the resource's name and passes the remote error
      through; a reply with neither error nor response panics where its status is read. */
  method Delete(mg: Managed, reply: Reply<DeleteListResp>)
    returns (req: Option<DeleteListReq>, out: Outcome<()>)
    ensures mg.OtherKind? ==> req == None && out == Returned((), Some(NotGrpcKind()))
    ensures mg.GrpcKindResource? ==> req == Some(DeleteListReq(mg.cr.forProvider.name))
    ensures mg.GrpcKindResource? && reply.err.Some? ==> out == Returned((), reply.err)
    ensures mg.GrpcKindResource? && reply.FromGeneratedClient() ==> out == Returned((), reply.err)
    ensures out == Panicked <==> mg.GrpcKindResource? && reply.err.None? && reply.resp.None?
  {
    if mg.OtherKind? {
      return None, Returned((), Some(NotGrpcKind()));
    }
    var cr := mg.cr;
    req := Some(DeleteListReq(cr.forProvider.name));
    if reply.err.Some? {
      return req, Returned((), reply.err);
    }
    if reply.resp.None? {
      return req, Panicked;
    }
    out := Returned((), None);
  }

  /** A reconciliation from scratch: the list is absent, Create is called with an empty
      description, and the next Observe, seeing the desired items, reports it current. */
  method ScenarioCreateThenCurrent() {
    var cr := new GrpcKind(GrpcKindParameters("a", Some("groceries"), NonNil([1, 2, 3])));
    var mg := GrpcKindResource(cr);

    var missing := Reply(Some(Error("rpc error: code = Unknown desc = list a " + NotFoundText)), None);
    ObserveNotFoundInContext("rpc error: code = Unknown desc = list a ", "", None, cr.forProvider.listItems);
    assert "rpc error: code = Unknown desc = list a " + NotFoundText + "" ==
           "rpc error: code = Unknown desc = list a " + NotFoundText;
    var getReq, obs, err := Observe(mg, missing);
    assert getReq == Some(GetListReq("a"));
    assert NextAction(obs) == CallCreate && err == None;

    var createReq, created := Create(mg, Reply(None, Some(CreateListResp(StatusSuccess))));
    assert createReq == Some(CreateListReq("a", ""));
    assert cr.forProvider.description == Some("");
    assert cr.atProvider.status == StatusSuccess;
    assert created == Returned(ExternalCreation(Some(map[])), None);

    getReq, obs, err := Observe(mg, Reply(None, Some(GetListResp(StatusSuccess, NonNil([1, 2, 3])))));
    assert NextAction(obs) == NoAction && err == None;
    assert cr.ready == Some(Available);
  }

  /** A remote list missing an item is stale, and the Update that follows sends every desired item. */
  method ScenarioStaleThenUpdate() {
    var cr := new GrpcKind(GrpcKindParameters("a", None, NonNil([1, 2, 3])));
    var mg := GrpcKindResource(cr);
    var _, obs, err := Observe(mg, Reply(None, Some(GetListResp(StatusSuccess, NonNil([1, 2])))));
    assert NextAction(obs) == CallUpdate && err == None;
    var req, upd, uerr := Update(mg, Reply(None, Some(UpdateListItemsResp(StatusSuccess))));
    assert req == Some(UpdateListItemsReq("a", NonNil([1, 2, 3])));
    assert uerr == None;
  }
}
