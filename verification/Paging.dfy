/** The three paged discovery procedures of bluez/gatt-helpers.c: primary services, the
    characteristics of a service and the descriptors of a characteristic. Each stores the
    pages it gets and asks again behind the last element until the range is used up. */
module Paging {
  import opened Wrappers
  import opened Pdus
  import opened Uuids
  import opened Pages

  const NOT_FOUND := 0x0A

  datatype Procedure = Groups | Characteristics | Descriptors

  /** What a server lists: a service with its last handle, a characteristic declaration with
      its properties and value handle, or a descriptor. */
  datatype Item = Item(handle: int, last: int, properties: int, value: int, uuid: Uuid)

  function Encode(proc: Procedure, x: Item): seq<int> {
    match proc
    case Groups => Le16(x.handle) + Le16(x.last) + ToLe(x.uuid)
    case Characteristics => Le16(x.handle) + [x.properties] + Le16(x.value) + ToLe(x.uuid)
    case Descriptors => Le16(x.handle) + ToLe(x.uuid)
  }

  /** Octets of an element before its UUID. */
  function Fixed(proc: Procedure): int {
    match proc
    case Groups => 4
    case Characteristics => 5
    case Descriptors => 2
  }

  function ElementSize(proc: Procedure, uuid: Uuid): int {
    Fixed(proc) + if uuid.Uuid16? then 2 else 16
  }

  function Header(proc: Procedure, uuid: Uuid): int {
    if proc == Descriptors then (if uuid.Uuid16? then 1 else 2) else ElementSize(proc, uuid)
  }

  /** The element size that the first octet of a response stands for. */
  function SizeFrom(proc: Procedure, header: int): Option<int> {
    match proc
    case Groups => if header == 6 || header == 20 then Some(header) else None
    case Characteristics => if header == 7 || header == 21 then Some(header) else None
    case Descriptors => if header == 1 then Some(4) else if header == 2 then Some(18) else None
  }

  function ResponseOpcode(proc: Procedure): int {
    match proc
    case Groups => 0x11
    case Characteristics => 0x09
    case Descriptors => 0x05
  }

  function MinLength(proc: Procedure): int {
    match proc
    case Groups => 7
    case Characteristics => 8
    case Descriptors => 5
  }

  // ---- the request

  datatype Phase = Waiting | Done(success: bool, ecode: int)

  datatype Request = Request(proc: Procedure, from: int, end: int, results: seq<Page>, phase: Phase)

  /** A response, and whether the request that is sent next, if any, goes out. */
  datatype Reply = Reply(opcode: int, pdu: seq<int>, sent: bool)

  function Start(proc: Procedure, start: int, end: int): Request { Request(proc, start, end, [], Waiting) }

  /** The handle after which the next request starts. */
  function LastHandle(proc: Procedure, element: seq<int>): int
    requires |element| >= 4
  {
    if proc == Groups then GetLe16(element[2..]) else GetLe16(element)
  }

  predicate GoesOn(proc: Procedure, last: int, end: int) {
    if proc == Groups then last < end else last != end
  }

  /** A device that reports 0xffff as the end of the last group of a smaller range. */
  function PatchEnd(p: Page, end: int): Page
    requires p.size >= 4 && |p.payload| >= p.size
  {
    var at := |p.payload| - p.size + 2;
    p.(payload := p.payload[at := end % 0x100][at + 1 := end / 0x100])
  }

  function Store(r: Request, page: Page, sent: bool): Request
    requires page.size >= 4 && |page.payload| >= page.size
  {
    var last := LastHandle(r.proc, page.payload[|page.payload| - page.size..]);
    if GoesOn(r.proc, last, r.end) then
      if sent then r.(results := r.results + [page], from := (last + 1) % 0x1_0000)
      else r.(results := r.results + [page], phase := Done(false, 0))
    else
      var stored := if r.proc == Groups && last == 0xFFFF && last != r.end then PatchEnd(page, r.end) else page;
      r.(results := r.results + [stored], phase := Done(true, 0))
  }

  lemma AtLeastOne(n: int, size: int)
    requires n > 0 && size > 0 && n % size == 0
    ensures n >= size
  {
  }

  /** read_by_grp_type_cb, discover_chrcs_cb and discover_descs_cb. */
  function OnReply(r: Request, reply: Reply): Request {
    if r.phase.Done? then r
    else if reply.opcode == ERROR_RSP then
      var ecode := ProcessError(reply.pdu);
      r.(phase := Done(ecode == NOT_FOUND && |r.results| > 0, ecode))
    else if reply.opcode != ResponseOpcode(r.proc) || |reply.pdu| < MinLength(r.proc) then
      r.(phase := Done(false, 0))
    else
      match SizeFrom(r.proc, reply.pdu[0])
      case None => r.(phase := Done(false, 0))
      case Some(size) =>
        if (|reply.pdu| - 1) % size != 0 then r.(phase := Done(false, 0))
        else
          AtLeastOne(|reply.pdu| - 1, size);
          Store(r, Page(reply.pdu[1..], size), reply.sent)
  }

  // ---- the server

  /** In order and disjoint, inside the range. */
  predicate Listed(proc: Procedure, items: seq<Item>, end: int) {
    && end <= 0xFFFF
    && (forall i :: 0 <= i < |items| ==> 1 <= items[i].handle <= items[i].last <= end && IsUuid(items[i].uuid))
    && (proc != Groups ==> forall i :: 0 <= i < |items| ==> items[i].last == items[i].handle)
    && (forall i, j :: 0 <= i < j < |items| ==> items[i].last < items[j].handle)
  }

  function EncodeAll(proc: Procedure, items: seq<Item>): (r: seq<seq<int>>)
    ensures |r| == |items|
  {
    seq(|items|, i requires 0 <= i < |items| => Encode(proc, items[i]))
  }

  /** UUIDs of one size fit in one response. */
  predicate SameForm(items: seq<Item>) {
    forall i :: 0 <= i < |items| ==> items[i].uuid.Uuid16? == items[0].uuid.Uuid16?
  }

  function PageReply(proc: Procedure, items: seq<Item>): Reply
    requires |items| > 0
  {
    Reply(if proc == Groups then 0x11 else if proc == Characteristics then 0x09 else 0x05,
          [Header(proc, items[0].uuid)] + Join(EncodeAll(proc, items)), true)
  }

  function Behind(items: seq<Item>, from: int): seq<Item> {
    if |items| == 0 || items[0].handle >= from then items else Behind(items[1..], from)
  }

  predicate IsNotFound(reply: Reply) {
    reply.opcode == 0x01 && |reply.pdu| == 4 && reply.pdu[3] == 0x0A
  }

  /** A server may answer with any non-empty prefix of what it has left in the range; the
      link stays up for the next request. */
  ghost predicate Answers(r: Request, items: seq<Item>, reply: Reply) {
    var rest := Behind(items, r.from);
    if |rest| == 0 then IsNotFound(reply) && reply.sent
    else exists n :: 1 <= n <= |rest| && SameForm(rest[..n]) && reply == PageReply(r.proc, rest[..n])
  }

  /** Every reply is one the server may give to the request it answers. */
  ghost predicate Session(r: Request, items: seq<Item>, replies: seq<Reply>)
    decreases |replies|
  {
    |replies| == 0 || (r.phase.Waiting? && Answers(r, items, replies[0])
                       && Session(OnReply(r, replies[0]), items, replies[1..]))
  }

  function Serve(r: Request, replies: seq<Reply>): Request
    decreases |replies|
  {
    if |replies| == 0 then r else Serve(OnReply(r, replies[0]), replies[1..])
  }

  // ---- one page

  lemma EncodeSize(proc: Procedure, x: Item)
    requires IsUuid(x.uuid)
    ensures |Encode(proc, x)| == ElementSize(proc, x.uuid) >= 4
    ensures SizeFrom(proc, Header(proc, x.uuid)) == Some(ElementSize(proc, x.uuid))
    ensures ElementSize(proc, x.uuid) in {4, 6, 7, 18, 20, 21}
    ensures MinLength(proc) == Fixed(proc) + 3 <= ElementSize(proc, x.uuid) + 1
  {
  }

  lemma EncodeLast(proc: Procedure, x: Item)
    requires IsUuid(x.uuid) && (proc != Groups ==> x.last == x.handle)
    ensures |Encode(proc, x)| >= 4 && LastHandle(proc, Encode(proc, x)) == x.last
  {
    EncodeSize(proc, x);
    var e := Encode(proc, x);
    Le16RoundTrip(x.last);
    if proc == Groups {
      assert e[2..][..2] == Le16(x.last);
    } else {
      assert e[..2] == Le16(x.handle);
    }
  }

  lemma EncodeAllSized(proc: Procedure, items: seq<Item>)
    requires |items| > 0 && SameForm(items) && forall i :: 0 <= i < |items| ==> IsUuid(items[i].uuid)
    ensures Sized(EncodeAll(proc, items), ElementSize(proc, items[0].uuid))
  {
    forall i | 0 <= i < |items|
      ensures |EncodeAll(proc, items)[i]| == ElementSize(proc, items[0].uuid)
    {
      EncodeSize(proc, items[i]);
    }
  }

  function PageOf(proc: Procedure, items: seq<Item>): Page
    requires |items| > 0
  {
    Page(Join(EncodeAll(proc, items)), ElementSize(proc, items[0].uuid))
  }

  /** A page is stored whole, and its elements are the items. */
  lemma PageHolds(proc: Procedure, items: seq<Item>)
    requires |items| > 0 && SameForm(items) && forall i :: 0 <= i < |items| ==> IsUuid(items[i].uuid)
    requires proc != Groups ==> items[|items| - 1].last == items[|items| - 1].handle
    ensures var p := PageOf(proc, items);
            && Fine(p) && p.size >= 4 && |p.payload| >= p.size && p.size in {4, 6, 7, 18, 20, 21}
            && Split(p.payload, p.size) == EncodeAll(proc, items)
            && LastHandle(proc, p.payload[|p.payload| - p.size..]) == items[|items| - 1].last
  {
    hide Encode, IsUuid, Split, Whole, LastHandle, Join, ElementSize;
    EncodeSize(proc, items[0]);
    EncodeAllSized(proc, items);
    var p := PageOf(proc, items);
    SplitJoin(EncodeAll(proc, items), p.size);
    JoinLast(EncodeAll(proc, items), p.size);
    EncodeLast(proc, items[|items| - 1]);
  }

  /** A response page passes all the checks of the callback. */
  lemma PageIsStored(r: Request, items: seq<Item>)
    requires r.phase.Waiting?
    requires |items| > 0 && SameForm(items) && forall i :: 0 <= i < |items| ==> IsUuid(items[i].uuid)
    requires r.proc != Groups ==> items[|items| - 1].last == items[|items| - 1].handle
    ensures var p := PageOf(r.proc, items);
            p.size >= 4 && |p.payload| >= p.size && OnReply(r, PageReply(r.proc, items)) == Store(r, p, true)
  {
    hide Encode, IsUuid, Split, LastHandle, Join, ElementSize, Header, SizeFrom, Store, Whole, Fixed, MinLength;
    var reply, p := PageReply(r.proc, items), PageOf(r.proc, items);
    PageHolds(r.proc, items);
    EncodeSize(r.proc, items[0]);
    WholeIsRemainder(p.payload, p.size);
    assert reply.pdu[0] == Header(r.proc, items[0].uuid) && reply.pdu[1..] == p.payload;
    NotError(r.proc);
  }

  lemma NotError(proc: Procedure)
    ensures ResponseOpcode(proc) != ERROR_RSP
  {
  }

  // ---- a whole session

  /** After k items: they are what the pages hold, and the rest is what the server has left. */
  ghost predicate Got(r: Request, items: seq<Item>, k: nat) {
    && k <= |items|
    && AllFine(r.results) && Elements(r.results) == EncodeAll(r.proc, items[..k])
    && (|r.results| > 0 <==> k > 0)
    && (r.phase.Waiting? ==>
          Behind(items, r.from) == items[k..] && (forall i :: 0 <= i < k ==> items[i].handle < r.from))
    && (r.phase.Done? && r.phase.success ==> k == |items| > 0)
    && (r.phase.Done? && !r.phase.success ==> |items| == 0 && r.phase.ecode == NOT_FOUND)
  }

  lemma EncodeAllAppend(proc: Procedure, a: seq<Item>, b: seq<Item>)
    ensures EncodeAll(proc, a + b) == EncodeAll(proc, a) + EncodeAll(proc, b)
  {
    hide Encode;
  }

  /** What lies behind the last handle of a prefix is the rest. */
  lemma {:induction false} BehindPrefix(proc: Procedure, items: seq<Item>, k: nat, end: int, from: int)
    requires Listed(proc, items, end) && k <= |items|
    requires k > 0 ==> items[k - 1].last < from
    requires k < |items| ==> from <= items[k].handle
    ensures Behind(items, from) == items[k..]
    ensures forall i :: 0 <= i < k ==> items[i].handle < from
    decreases k
  {
    if k > 0 {
      ListedTail(proc, items, end);
      BehindPrefix(proc, items[1..], k - 1, end, from);
      assert items[1..][k - 1..] == items[k..];
      assert forall i :: 1 <= i < k ==> items[i] == items[1..][i - 1];
    }
  }

  lemma ListedTail(proc: Procedure, items: seq<Item>, end: int)
    requires Listed(proc, items, end) && |items| > 0
    ensures Listed(proc, items[1..], end)
  {
    hide IsUuid;
  }

  lemma NotFoundSettles(r: Request, items: seq<Item>, k: nat, reply: Reply)
    requires Got(r, items, k) && r.phase.Waiting? && |Behind(items, r.from)| == 0 && IsNotFound(reply)
    ensures Got(OnReply(r, reply), items, |items|) && OnReply(r, reply).phase.Done?
  {
    hide Elements, AllFine, EncodeAll, Behind;
    assert k == |items|;
  }

  /** The page with items k to k + n is stored. */
  lemma PageSettles(r: Request, items: seq<Item>, k: nat, n: nat)
    requires Got(r, items, k) && r.phase.Waiting? && Listed(r.proc, items, r.end)
    requires 1 <= n <= |items| - k && SameForm(items[k..][..n])
    ensures var r' := OnReply(r, PageReply(r.proc, items[k..][..n]));
            Got(r', items, k + n) && r'.proc == r.proc && r'.end == r.end
  {
    hide Encode, IsUuid, Elements, AllFine, EncodeAll, Behind, PageReply, OnReply, SameForm, PageOf, LastHandle, Fine;
    var xs := items[k..][..n];
    assert forall i :: 0 <= i < n ==> xs[i] == items[k + i];
    PageHolds(r.proc, xs);
    PageIsStored(r, xs);
    var p := PageOf(r.proc, xs);
    ElementsPush(r.results, p);
    EncodeAllAppend(r.proc, items[..k], xs);
    assert items[..k + n] == items[..k] + xs;
    StoreSettles(r, items, k + n, p);
  }

  lemma NothingBehindTheEnd(proc: Procedure, items: seq<Item>, k: nat, end: int)
    requires Listed(proc, items, end) && 0 < k <= |items|
    ensures items[k - 1].last >= end ==> k == |items| && items[k - 1].last == end
  {
    if k < |items| {
      assert items[k - 1].last < items[k].handle <= items[k].last <= end;
    }
  }

  lemma StoreSettles(r: Request, items: seq<Item>, k: nat, p: Page)
    requires r.phase.Waiting? && Listed(r.proc, items, r.end) && 0 < k <= |items|
    requires p.size >= 4 && |p.payload| >= p.size
             && LastHandle(r.proc, p.payload[|p.payload| - p.size..]) == items[k - 1].last
    requires AllFine(r.results + [p]) && Elements(r.results + [p]) == EncodeAll(r.proc, items[..k])
    ensures var r' := Store(r, p, true);
            Got(r', items, k) && r'.proc == r.proc && r'.end == r.end
  {
    hide IsUuid, Elements, AllFine, EncodeAll, Behind, LastHandle, PatchEnd;
    var last := items[k - 1].last;
    if GoesOn(r.proc, last, r.end) {
      BehindPrefix(r.proc, items, k, r.end, last + 1);
    }
    NothingBehindTheEnd(r.proc, items, k, r.end);
  }

  lemma StepGot(r: Request, items: seq<Item>, k: nat, reply: Reply) returns (k': nat)
    requires Got(r, items, k) && r.phase.Waiting? && Listed(r.proc, items, r.end) && Answers(r, items, reply)
    ensures var r' := OnReply(r, reply);
            Got(r', items, k') && r'.proc == r.proc && r'.end == r.end && (r'.phase.Waiting? ==> k' > k)
  {
    hide Elements, AllFine, EncodeAll, Behind, PageReply, SameForm, OnReply, Listed, IsNotFound;
    var rest := Behind(items, r.from);
    if |rest| == 0 {
      NotFoundSettles(r, items, k, reply);
      SameRange(r, reply);
      return |items|;
    } else {
      var n :| 1 <= n <= |rest| && SameForm(rest[..n]) && reply == PageReply(r.proc, rest[..n]);
      PageSettles(r, items, k, n);
      return k + n;
    }
  }

  lemma SameRange(r: Request, reply: Reply)
    ensures OnReply(r, reply).proc == r.proc && OnReply(r, reply).end == r.end
  {
    hide LastHandle, PatchEnd, ProcessError;
  }

  lemma {:induction false} ServeGot(r: Request, items: seq<Item>, k: nat, replies: seq<Reply>) returns (k': nat)
    requires Got(r, items, k) && Listed(r.proc, items, r.end) && Session(r, items, replies)
    ensures var r' := Serve(r, replies);
            Got(r', items, k') && r'.proc == r.proc && (r'.phase.Waiting? ==> k' >= k + |replies|)
    ensures |replies| <= |items| - k + 1
    decreases |replies|
  {
    hide Got, OnReply, Answers, Listed;
    if |replies| == 0 {
      GotBound(r, items, k);
      return k;
    } else {
      var m := StepGot(r, items, k, replies[0]);
      GotBound(r, items, k);
      GotBound(OnReply(r, replies[0]), items, m);
      k' := ServeGot(OnReply(r, replies[0]), items, m, replies[1..]);
      DoneStays(OnReply(r, replies[0]), items, replies[1..]);
    }
  }

  lemma GotBound(r: Request, items: seq<Item>, k: nat)
    requires Got(r, items, k)
    ensures k <= |items|
  {
  }

  lemma DoneStays(r: Request, items: seq<Item>, replies: seq<Reply>)
    requires Session(r, items, replies)
    ensures r.phase.Done? ==> |replies| == 0
  {
  }

  /** However the server cuts its list into pages: after at most one reply more than it has
      items the procedure ends, and then it succeeded exactly if there are items and the
      pages hold exactly these, element by element and in order. */
  lemma PagedDiscovery(proc: Procedure, start: int, end: int, items: seq<Item>, replies: seq<Reply>)
    requires Listed(proc, items, end) && (|items| > 0 ==> start <= items[0].handle)
    requires Session(Start(proc, start, end), items, replies)
    ensures var r := Serve(Start(proc, start, end), replies);
            && |replies| <= |items| + 1
            && (|replies| == |items| + 1 ==> r.phase.Done?)
            && (r.phase.Done? ==> r.phase.success == (|items| > 0))
            && (r.phase.Done? && r.phase.success
                ==> AllFine(r.results) && Elements(r.results) == EncodeAll(proc, items))
            && (r.phase.Done? && !r.phase.success ==> r.phase.ecode == 0x0A)
  {
    hide Serve, Session, Listed, EncodeAll, Elements;
    var r := Start(proc, start, end);
    StartGot(proc, start, end, items);
    var k := ServeGot(r, items, 0, replies);
    assert items[..|items|] == items;
  }

  lemma StartGot(proc: Procedure, start: int, end: int, items: seq<Item>)
    requires |items| > 0 ==> start <= items[0].handle
    ensures Got(Start(proc, start, end), items, 0)
  {
    assert items[0..] == items;
    assert EncodeAll(proc, items[..0]) == [];
  }

  // ---- progress for every server

  /** The handles still to be asked for shrink with every page that ends inside the range,
      whatever else the page holds. */
  lemma RangeShrinks(r: Request, p: Page, sent: bool)
    requires r.phase.Waiting? && p.size >= 4 && |p.payload| >= p.size && r.end <= 0xFFFF
    requires 0 <= r.from <= LastHandle(r.proc, p.payload[|p.payload| - p.size..]) <= r.end
    ensures var r' := Store(r, p, sent);
            r'.phase.Waiting? ==> 0 <= r'.end - r'.from < r.end - r.from
  {
    hide LastHandle;
  }

  /** A last group that a server ends at 0xffff is reported with the end of the range that
      was asked for. */
  lemma WideGroupIsCut(r: Request, p: Page, sent: bool)
    requires r.proc == Groups && r.phase.Waiting? && 0 <= r.end < 0xFFFF
    requires p.size >= 4 && |p.payload| >= p.size && LastHandle(Groups, p.payload[|p.payload| - p.size..]) == 0xFFFF
    ensures var r' := Store(r, p, sent);
            && r'.phase == Done(true, 0) && |r'.results| == |r.results| + 1
            && var q := r'.results[|r.results|];
               |q.payload| == |p.payload| && q.size == p.size
               && LastHandle(Groups, q.payload[|q.payload| - q.size..]) == r.end
               && (forall i :: 0 <= i < |p.payload| && i - |p.payload| + p.size !in {2, 3} ==>
                     q.payload[i] == p.payload[i])
  {
    var q := PatchEnd(p, r.end);
    var e := q.payload[|q.payload| - q.size..];
    assert e[2..][0] == q.payload[|p.payload| - p.size + 2] && e[2..][1] == q.payload[|p.payload| - p.size + 3];
  }

  // ---- what is stored, whatever arrives

  predicate IsSize(proc: Procedure, size: int) { size == Fixed(proc) + 2 || size == Fixed(proc) + 16 }

  /** Pages of whole elements of a size that the procedure knows. */
  predicate Stored(proc: Procedure, pages: seq<Page>) {
    AllFine(pages) && forall i :: 0 <= i < |pages| ==> IsSize(proc, pages[i].size)
  }

  lemma {:induction false} WholeByLength(a: seq<int>, b: seq<int>, size: int)
    requires size > 0 && |a| == |b|
    ensures Whole(a, size) == Whole(b, size)
    decreases |a|
  {
    if |a| >= size {
      WholeByLength(a[size..], b[size..], size);
    }
  }

  lemma StoreKeeps(r: Request, p: Page, sent: bool)
    requires Stored(r.proc, r.results) && Fine(p) && IsSize(r.proc, p.size) && |p.payload| >= p.size
    ensures Stored(r.proc, Store(r, p, sent).results)
  {
    hide Whole, LastHandle;
    var at := |p.payload| - p.size + 2;
    WholeByLength(p.payload, p.payload[at := r.end % 0x100][at + 1 := r.end / 0x100], p.size);
  }

  lemma SizesKnown(proc: Procedure, header: int)
    ensures SizeFrom(proc, header).Some?
            ==> IsSize(proc, SizeFrom(proc, header).value) && SizeFrom(proc, header).value in {4, 6, 7, 18, 20, 21}
    ensures MinLength(proc) >= 2
  {
  }

  /** Whatever octets arrive, only whole elements of a known size are ever stored. */
  lemma OnReplyStores(r: Request, reply: Reply)
    requires Stored(r.proc, r.results)
    ensures Stored(r.proc, OnReply(r, reply).results)
  {
    hide Stored, IsSize, SizeFrom, Store, Whole, ProcessError, ResponseOpcode;
    if r.phase.Waiting? && reply.opcode == ResponseOpcode(r.proc) && reply.opcode != ERROR_RSP
       && |reply.pdu| >= MinLength(r.proc) {
      SizesKnown(r.proc, reply.pdu[0]);
      match SizeFrom(r.proc, reply.pdu[0])
      case None =>
      case Some(size) =>
        if (|reply.pdu| - 1) % size == 0 {
          AtLeastOne(|reply.pdu| - 1, size);
          WholeIsRemainder(reply.pdu[1..], size);
          StoreKeeps(r, Page(reply.pdu[1..], size), reply.sent);
        }
    }
  }

  predicate LongEnough(proc: Procedure, es: seq<seq<int>>) {
    forall i :: 0 <= i < |es| ==> |es[i]| == Fixed(proc) + 2 || |es[i]| == Fixed(proc) + 16
  }

  lemma {:induction false} SplitSized(b: seq<int>, size: int)
    requires size > 0
    ensures Sized(Split(b, size), size)
    decreases |b|
  {
    if |b| >= size {
      SplitSized(b[size..], size);
    }
  }

  lemma {:induction false} ElementsLongEnough(proc: Procedure, pages: seq<Page>)
    requires Stored(proc, pages)
    ensures LongEnough(proc, Elements(pages))
    decreases |pages|
  {
    hide Split, Whole, Fixed;
    if |pages| > 0 {
      var rest := pages[1..];
      assert forall i :: 0 <= i < |rest| ==> rest[i] == pages[i + 1];
      ElementsLongEnough(proc, rest);
      assert Fine(pages[0]) && IsSize(proc, pages[0].size);
      SplitSized(pages[0].payload, pages[0].size);
    }
  }
}
