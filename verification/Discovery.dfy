/** Discovery of one service in gatt-client.c: first all its characteristics, then, one
    characteristic after the other, the descriptors between its value and the next
    declaration; the attribute table is rebuilt on the way. */
module Discovery {
  import opened Uuids
  import opened Pages
  import opened Paging
  import opened GattDb
  import opened Primary

  // ---- the client

  datatype Chrc = Chrc(start: int, end: int, value: int, properties: int, uuid: Uuid)

  datatype Stage = FindingChrcs | FindingDescs | Finished(ok: bool)

  /** The service under construction, the characteristics still to be added, and the request
      in flight with the handle it started from. */
  datatype Client = Client(svc: Service, pending: seq<Chrc>, request: Request, since: int, stage: Stage)

  /** A service is begun, with whatever is pending. */
  function Begin(svc: Service, pending: seq<Chrc>): Client {
    Client(svc, pending, Start(Characteristics, svc.start, End(svc)), svc.start, FindingChrcs)
  }

  /** bt_gatt_iter_next_characteristic: a characteristic ends before the next declaration. */
  function ReadChrcs(es: seq<seq<int>>, end: int): seq<Chrc>
    requires LongEnough(Characteristics, es)
    decreases |es|
  {
    if |es| == 0 then []
    else
      var e := es[0];
      var last := if |es| == 1 then end else (GetLe16(es[1]) - 1) % 0x1_0000;
      [Chrc(GetLe16(e), last, GetLe16(e[3..]), e[2], ConvertUuid(e[5..]))] + ReadChrcs(es[1..], end)
  }

  /** discover_descs: characteristics are added until one may have descriptors; `sent` says
      whether the request for them goes out. */
  function DiscoverDescs(c: Client, sent: bool): Client
    requires Tidy(c.svc)
    decreases |c.pending|
  {
    if |c.pending| == 0 then c.(svc := c.svc.(active := true), stage := Finished(true))
    else
      var x, rest := c.pending[0], c.pending[1..];
      var free := FreeIndex(c.svc, 1);
      var svc := AddCharacteristic(c.svc, x.uuid, x.properties);
      CharacteristicAdded(c.svc, x.uuid, x.properties);
      if free == 0 || svc.slots[free + 1].value.handle != x.value then
        c.(svc := svc, pending := rest, stage := Finished(false))
      else
        var from := (x.value + 1) % 0x1_0000;
        if from > x.end then DiscoverDescs(c.(svc := svc, pending := rest), sent)
        else if !sent then c.(svc := svc, pending := rest, stage := Finished(false))
        else Client(svc, rest, Start(Descriptors, from, x.end), from, FindingDescs)
  }

  /** The loop of discover_descs_cb; the flag says whether all of them fitted. */
  function AddDescs(svc: Service, es: seq<seq<int>>): (Service, bool)
    requires Tidy(svc) && LongEnough(Descriptors, es)
    decreases |es|
  {
    if |es| == 0 then (svc, true)
    else
      var free := FreeIndex(svc, 0);
      var s := AddDescriptor(svc, ConvertUuid(es[0][2..]));
      DescriptorAdded(svc, ConvertUuid(es[0][2..]));
      if free == 0 || s.slots[free].value.handle != GetLe16(es[0]) then (s, false)
      else AddDescs(s, es[1..])
  }

  lemma {:induction false} AddDescsTidy(svc: Service, es: seq<seq<int>>)
    requires Tidy(svc) && LongEnough(Descriptors, es)
    ensures Tidy(AddDescs(svc, es).0) && AddDescs(svc, es).0.start == svc.start && AddDescs(svc, es).0.num == svc.num
    decreases |es|
  {
    hide Tidy, AddDescriptor, ConvertUuid;
    if |es| > 0 {
      DescriptorAdded(svc, ConvertUuid(es[0][2..]));
      AddDescsTidy(AddDescriptor(svc, ConvertUuid(es[0][2..])), es[1..]);
    }
  }

  /** discover_chrcs_cb of the client, when its request has ended. */
  function OnChrcs(c: Client, sent: bool): Client
    requires Tidy(c.svc) && c.request.phase.Done? && Stored(Characteristics, c.request.results)
  {
    var r := c.request;
    if !r.phase.success then
      if r.phase.ecode == NOT_FOUND then c.(svc := c.svc.(active := true), stage := Finished(true))
      else c.(stage := Finished(false))
    else if |r.results| == 0 then c.(stage := Finished(false))
    else
      ElementsLongEnough(Characteristics, r.results);
      DiscoverDescs(c.(pending := c.pending + ReadChrcs(Elements(r.results), r.end)), sent)
  }

  /** discover_descs_cb. When no descriptor was found, what is pending is not looked at. */
  function OnDescs(c: Client, sent: bool): Client
    requires Tidy(c.svc) && c.request.phase.Done? && Stored(Descriptors, c.request.results)
  {
    var r := c.request;
    if !r.phase.success then
      if r.phase.ecode == NOT_FOUND then c.(svc := c.svc.(active := true), stage := Finished(true))
      else c.(stage := Finished(false))
    else if |r.results| == 0 then c.(stage := Finished(false))
    else
      ElementsLongEnough(Descriptors, r.results);
      AddDescsTidy(c.svc, Elements(r.results));
      var (svc, ok) := AddDescs(c.svc, Elements(r.results));
      if !ok then c.(svc := svc, stage := Finished(false)) else DiscoverDescs(c.(svc := svc), sent)
  }

  predicate Ready(c: Client) {
    && Tidy(c.svc)
    && (c.stage.FindingChrcs? ==> c.request.proc == Characteristics)
    && (c.stage.FindingDescs? ==> c.request.proc == Descriptors)
    && (!c.stage.Finished? ==> c.request.phase.Waiting? && Stored(c.request.proc, c.request.results))
  }

  function ClientStep(c: Client, reply: Reply): Client
    requires Ready(c)
  {
    if c.stage.Finished? then c
    else
      OnReplyStores(c.request, reply);
      SameRange(c.request, reply);
      var c1 := c.(request := OnReply(c.request, reply));
      if c1.request.phase.Waiting? then c1
      else if c.stage.FindingChrcs? then OnChrcs(c1, reply.sent)
      else OnDescs(c1, reply.sent)
  }

  lemma {:induction false} DiscoverDescsReady(c: Client, sent: bool)
    requires Tidy(c.svc)
    ensures Ready(DiscoverDescs(c, sent))
    decreases |c.pending|
  {
    hide Tidy, AddCharacteristic, Stored;
    ActiveStaysTidy(c.svc);
    if |c.pending| > 0 {
      var x := c.pending[0];
      var svc := AddCharacteristic(c.svc, x.uuid, x.properties);
      CharacteristicAdded(c.svc, x.uuid, x.properties);
      DiscoverDescsReady(c.(svc := svc, pending := c.pending[1..]), sent);
      NothingStored(Descriptors, (x.value + 1) % 0x1_0000, x.end);
    }
  }

  lemma ActiveStaysTidy(s: Service)
    requires Tidy(s)
    ensures Tidy(s.(active := true))
  {
  }

  /** Whatever a server sends, the table stays a tidy prefix and the stored pages are whole. */
  lemma ClientStepReady(c: Client, reply: Reply)
    requires Ready(c)
    ensures Ready(ClientStep(c, reply))
  {
    hide Tidy, OnReply, DiscoverDescs, AddDescs, ReadChrcs, Elements, LongEnough, AllFine, IsSize;
    if !c.stage.Finished? {
      OnReplyStores(c.request, reply);
      SameRange(c.request, reply);
      var r := OnReply(c.request, reply);
      ActiveStaysTidy(c.svc);
      if r.phase.Done? && r.phase.success && |r.results| > 0 {
        ElementsLongEnough(r.proc, r.results);
        if c.stage.FindingChrcs? {
          DiscoverDescsReady(c.(request := r, pending := c.pending + ReadChrcs(Elements(r.results), r.end)),
                             reply.sent);
        } else {
          AddDescsTidy(c.svc, Elements(r.results));
          DiscoverDescsReady(c.(request := r, svc := AddDescs(c.svc, Elements(r.results)).0), reply.sent);
        }
      }
    }
  }

  function ClientRun(c: Client, replies: seq<Reply>): Client
    requires Ready(c)
    decreases |replies|
  {
    if |replies| == 0 then c
    else
      ClientStepReady(c, replies[0]);
      ClientRun(ClientStep(c, replies[0]), replies[1..])
  }
}
