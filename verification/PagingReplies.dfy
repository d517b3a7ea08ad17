/** The octets of the paged discovery procedures, and what every single reply leads to. */
module PagingReplies {
  import opened Wrappers
  import opened Uuids
  import opened Pages
  import opened Paging

  /** An item as it is sent: for a service its range, for a declaration its handle, properties
      and value handle, for an attribute its handle; then the UUID. */
  lemma ItemOctets(x: Item, u: int)
    requires x.uuid == Uuid16(u)
    ensures Encode(Groups, x) == Le16(x.handle) + Le16(x.last) + Le16(u)
    ensures Encode(Characteristics, x) == Le16(x.handle) + [x.properties] + Le16(x.value) + Le16(u)
    ensures Encode(Descriptors, x) == Le16(x.handle) + Le16(u)
  {
  }

  /** The first octet of the parameters: the size of an item, or a code for it. */
  lemma HeaderOctets(short: Uuid, long: Uuid)
    requires short.Uuid16? && long.Uuid128?
    ensures Header(Groups, short) == 6 && Header(Groups, long) == 20
    ensures Header(Characteristics, short) == 7 && Header(Characteristics, long) == 21
    ensures Header(Descriptors, short) == 1 && Header(Descriptors, long) == 2
  {
  }

  /** The size of the items that a response carries, 0 for one that is not understood. */
  function SizeOf(proc: Procedure, reply: Reply): int {
    if |reply.pdu| == 0 then 0
    else
      var h := reply.pdu[0];
      match proc
      case Groups => if reply.opcode == 0x11 && h in {6, 20} then h else 0
      case Characteristics => if reply.opcode == 0x09 && h in {7, 21} then h else 0
      case Descriptors => if reply.opcode == 0x05 && h in {1, 2} then (if h == 1 then 4 else 18) else 0
  }

  /** It carries at least one item, and whole ones. */
  predicate Understood(proc: Procedure, reply: Reply) {
    SizeOf(proc, reply) > 0 && |reply.pdu| > 1 && (|reply.pdu| - 1) % SizeOf(proc, reply) == 0
  }

  lemma AtLeast(n: int, size: int)
    requires n > 0 && size > 0 && n % size == 0
    ensures n >= size
  {
  }

  /** Replies that are not understood end the procedure at once, without success and with
      nothing stored: an error response with its code, and anything else with 0. Only Not Found
      after a page ends it with success. */
  lemma OtherRepliesEnd(r: Request, reply: Reply)
    requires r.phase.Waiting? && !Understood(r.proc, reply)
    ensures var code := if reply.opcode == 0x01 && |reply.pdu| == 4 then reply.pdu[3] else 0;
            OnReply(r, reply) == r.(phase := Done(code == 0x0A && r.results != [], code))
  {
    hide Store;
    if |reply.pdu| >= 2 && reply.opcode == ResponseOpcode(r.proc) && SizeFrom(r.proc, reply.pdu[0]).Some? {
      var size := SizeFrom(r.proc, reply.pdu[0]).value;
      assert size == SizeOf(r.proc, reply);
    }
  }

  /** Where the last item ends: a service with the last handle of its range, anything else with
      its own. */
  function EndOf(proc: Procedure, octets: seq<int>, size: int): int
    requires size >= 4 && |octets| >= size
  {
    var at := |octets| - size + if proc == Groups then 2 else 0; octets[at] + 0x100 * octets[at + 1]
  }

  /** One that is understood is stored whole. The procedure asks on behind its last item, for
      services only below the end of the range, otherwise unless the end is met; it fails if
      that request is refused. A last service that ends at 0xffff, and only such a one, is cut
      to the range. */
  lemma UnderstoodIsStored(r: Request, reply: Reply)
    requires r.phase.Waiting? && Understood(r.proc, reply)
    ensures var size := SizeOf(r.proc, reply);
            var octets := reply.pdu[1..];
            && |octets| >= size >= 4
            && var last := EndOf(r.proc, octets, size);
               var on := if r.proc == Groups then last < r.end else last != r.end;
               var r' := OnReply(r, reply);
               && |r'.results| == |r.results| + 1 && r'.results[..|r.results|] == r.results
               && (on || r.proc != Groups || last != 0xFFFF || last == r.end ==>
                     r'.results[|r.results|] == Page(octets, size))
               && r'.proc == r.proc && r'.end == r.end
               && (if !on then r'.phase == Done(true, 0)
                   else if !reply.sent then r'.phase == Done(false, 0)
                   else r'.phase.Waiting? && r'.from == (last + 1) % 0x1_0000)
  {
    hide Store, OnReply, PatchEnd;
    var size := SizeOf(r.proc, reply);
    AtLeast(|reply.pdu| - 1, size);
    Reaches(r, reply);
    StoreIs(r, Page(reply.pdu[1..], size), reply.sent);
  }

  lemma Reaches(r: Request, reply: Reply)
    requires r.phase.Waiting? && Understood(r.proc, reply)
    ensures var size := SizeOf(r.proc, reply);
            4 <= size <= |reply.pdu| - 1 && OnReply(r, reply) == Store(r, Page(reply.pdu[1..], size), reply.sent)
  {
    hide Store;
    var size := SizeOf(r.proc, reply);
    AtLeast(|reply.pdu| - 1, size);
    assert SizeFrom(r.proc, reply.pdu[0]) == Some(size) && |reply.pdu| >= MinLength(r.proc);
  }

  lemma StoreIs(r: Request, page: Page, sent: bool)
    requires r.phase.Waiting? && page.size >= 4 && |page.payload| >= page.size
    ensures var last := EndOf(r.proc, page.payload, page.size);
            var on := if r.proc == Groups then last < r.end else last != r.end;
            var r' := Store(r, page, sent);
            && |r'.results| == |r.results| + 1 && r'.results[..|r.results|] == r.results
            && (on || r.proc != Groups || last != 0xFFFF || last == r.end ==> r'.results[|r.results|] == page)
            && r'.proc == r.proc && r'.end == r.end
            && (if !on then r'.phase == Done(true, 0)
                else if !sent then r'.phase == Done(false, 0)
                else r'.phase.Waiting? && r'.from == (last + 1) % 0x1_0000)
  {
    hide PatchEnd;
  }
}
