/** bluez/gatt-db.c as it is written: services with an array of attributes that is filled in
    place, and a database that keeps the list of services. */
module GattProgram {
  import opened Wrappers
  import opened Queue
  import opened Uuids
  import opened GattDb
  import opened GattScans

  class ServiceTable {
    const start: int
    const num: nat
    var active: bool
    const attributes: array<Option<Attribute>>

    ghost function View(): Service
      reads this, attributes
    {
      Service(start, num, active, attributes[..])
    }

    ghost predicate Valid()
      reads this, attributes
    {
      attributes.Length == num && Tidy(View())
    }

    /** gatt_db_service_create, with the handle set by gatt_db_insert_service. */
    constructor (handle: int, uuid: Uuid, primary: bool, num: nat)
      requires num >= 1
      ensures Valid() && fresh(attributes) && View() == NewService(handle, uuid, primary, num)
      ensures start == handle && this.num == num
    {
      start, this.num, active := handle, num, false;
      attributes := new Option<Attribute>[num](_ => None);
      new;
      attributes[0] := Some(Declaration(primary, handle, uuid));
      NewServiceTidy(handle, uuid, primary, num);
      assert attributes[..] == NewService(handle, uuid, primary, num).slots;
    }

    method GetAttributeIndex(endOffset: nat) returns (index: nat)
      requires Valid()
      ensures index == FreeIndex(View(), endOffset)
    {
      var i := 0;
      while i < num - endOffset && attributes[i].Some?
        invariant 0 <= i <= num
        invariant i <= Used(attributes[..])
      {
        i := i + 1;
      }
      if i < num - endOffset {
        assert View().slots[i] == attributes[i];
        return i;
      }
      return 0;
    }

    method SetAttributeData(i: nat, a: Attribute)
      requires i < attributes.Length
      modifies attributes
      ensures attributes[..] == old(attributes[..])[i := Some(a)]
    {
      attributes[i] := Some(a);
    }

    /** The value attribute, if there was room for it and its declaration. */
    method AddCharacteristicTo(uuid: Uuid, properties: int) returns (attr: Option<Attribute>)
      requires Valid()
      modifies attributes
      ensures View() == AddCharacteristic(old(View()), uuid, properties)
      ensures attr.Some? <==> old(Used(View().slots)) + 2 <= num
      ensures attr.Some? ==> attr.value == Attribute(start + old(Used(View().slots)) + 1, uuid, [])
    {
      hide Used, Tidy, CharacteristicValue;
      assert |View().slots| == num by { TidySize(View()); }
      var i := GetAttributeIndex(1);
      FreeIndexIs(View(), 1);
      if i == 0 {
        return None;
      }
      HandleAt(View(), i - 1);
      var h := attributes[i - 1].value.handle;
      SetAttributeData(i, Attribute(h + 1, CHARACTERISTIC, CharacteristicValue(properties, h + 2, uuid)));
      SetAttributeData(i + 1, Attribute(h + 2, uuid, []));
      return attributes[i + 1];
    }

    method AddDescriptorTo(uuid: Uuid) returns (attr: Option<Attribute>)
      requires Valid()
      modifies attributes
      ensures View() == AddDescriptor(old(View()), uuid)
      ensures attr.Some? <==> old(Used(View().slots)) < num
      ensures attr.Some? ==> attr.value == Attribute(start + old(Used(View().slots)), uuid, [])
    {
      hide Used, Tidy;
      assert |View().slots| == num by { TidySize(View()); }
      var i := GetAttributeIndex(0);
      FreeIndexIs(View(), 0);
      if i == 0 {
        return None;
      }
      HandleAt(View(), i - 1);
      SetAttributeData(i, Attribute(attributes[i - 1].value.handle + 1, uuid, []));
      return attributes[i];
    }

    method AddIncludedTo(included: ServiceTable) returns (ok: bool)
      requires Valid() && included.Valid()
      modifies attributes
      ensures View() == AddIncluded(old(View()), old(included.View()))
      ensures ok <==> old(Used(View().slots)) < num
    {
      hide Used, Tidy;
      assert |View().slots| == num && |included.View().slots| == included.num by {
        TidySize(View());
        TidySize(included.View());
      }
      FreeIndexIs(included.View(), 0);
      HandleAt(included.View(), 0);
      var uuid := included.attributes[0].value.value;
      var value := Le16(included.start) + Le16(included.start + included.num - 1);
      if |uuid| == 2 {
        value := value + uuid;
      }
      assert value == IncludedValue(included.View());
      var i := GetAttributeIndex(0);
      FreeIndexIs(View(), 0);
      if i == 0 {
        return false;
      }
      HandleAt(View(), i - 1);
      SetAttributeData(i, Attribute(attributes[i - 1].value.handle + 1, INCLUDE, value));
      return true;
    }

    method SetActive(value: bool)
      modifies this`active
      ensures View() == old(View()).(active := value)
    {
      active := value;
    }

    /** The loop of read_by_type and find_information over one service. */
    method ScanInto(from: int, to: int, wanted: Attribute -> bool, found: seq<Attribute>) returns (r: seq<Attribute>)
      requires Valid()
      ensures r == found + ScanSlots(View().slots, from, to, wanted)
    {
      r := found;
      var i := 0;
      while i < num
        invariant 0 <= i <= num
        invariant found + ScanSlots(attributes[..], from, to, wanted)
                  == r + ScanSlots(attributes[i..], from, to, wanted)
      {
        var slot := attributes[i];
        assert attributes[i..][1..] == attributes[i + 1..];
        i := i + 1;
        if slot == None || slot.value.handle < from {
          continue;
        }
        if slot.value.handle > to {
          return;
        }
        if wanted(slot.value) {
          r := r + [slot.value];
        }
      }
    }
  }

  class Database {
    var services: seq<ServiceTable>
    var nextHandle: int

    ghost predicate Valid()
      reads this, services, set s | s in services :: s.attributes
    {
      && (forall i :: 0 <= i < |services| ==> services[i].Valid())
      && Distinct(services)
    }

    ghost function View(): Db
      reads this, services, set s | s in services :: s.attributes
    {
      Db(Views(services), nextHandle)
    }

    constructor ()
      ensures Valid() && View() == NEW
    {
      services, nextHandle := [], 1;
    }

    method FindInsertLoc(from: int, to: int) returns (ok: bool, before: nat)
      requires Valid()
      ensures if ok then FindLoc(View().services, from, to) == At(before)
              else FindLoc(View().services, from, to) == Refused
      ensures before <= |services|
    {
      hide Views, Tidy, FindLoc;
      before := 0;
      assert FindLoc([], from, to) == At(0) by { FindLocEnds(from, to); }
      while before < |services|
        invariant before <= |services|
        invariant FindLoc(Views(services), from, to) == Shifted(FindLoc(Views(services)[before..], from, to), before)
      {
        var s := services[before];
        FindLocAt(Views(services), before, from, to);
        var first, last := s.start, s.start + s.num - 1;
        if from >= first && from <= last {
          return false, before;
        }
        if to >= first && to <= last {
          return false, before;
        }
        if to < first {
          return true, before;
        }
        before := before + 1;
      }
      return true, before;
    }

    /** The new service takes its place in the list. */
    method PushAt(before: nat, s: ServiceTable)
      requires Valid() && before <= |services| && s.Valid()
      requires forall i :: 0 <= i < |services| ==> services[i] != s && services[i].attributes != s.attributes
      modifies this`services
      ensures Valid() && services == InsertAt(old(services), before, s)
      ensures Views(services) == InsertAt(old(Views(services)), before, s.View())
    {
      hide Views, Tidy, InsertAt, Distinct;
      DistinctInsert(services, before, s);
      ViewsInsert(services, before, s);
      AllIn(services, before, s);
      ghost var was := services;
      services := InsertAt(services, before, s);
      assert forall i :: 0 <= i < |services| ==> services[i] in was || services[i] == s;
    }

    method InsertService(handle: int, uuid: Uuid, primary: bool, num: int) returns (service: ServiceTable?)
      requires Valid()
      modifies this
      ensures Valid() && View() == Insert(old(View()), handle, uuid, primary, num)
      ensures (service != null) == Inserts(old(View()), handle, num)
      ensures service != null ==>
                fresh(service) && service in services && service.View() == NewService(handle, uuid, primary, num)
    {
      hide Views, Tidy, NewService, FindLoc, InsertAt, Distinct;
      if handle < 1 {
        return null;
      }
      if num < 1 || handle + num - 1 > MAX_HANDLE {
        return null;
      }
      var ok, before := FindInsertLoc(handle, handle + num - 1);
      if !ok {
        return null;
      }
      var s := new ServiceTable(handle, uuid, primary, num);
      PushAt(before, s);
      AllIn(old(services), before, s);
      var next := if handle + num > nextHandle then handle + num else nextHandle;
      nextHandle := next % 0x1_0000;
      return s;
    }

    method GetAttributeAt(handle: int) returns (a: Option<Attribute>)
      requires Valid()
      ensures a == GetAttribute(View(), handle)
    {
      hide Views, Tidy;
      if handle == 0 {
        return None;
      }
      var i := 0;
      while i < |services| && !(services[i].start <= handle <= services[i].start + services[i].num - 1)
        invariant 0 <= i <= |services|
        invariant forall k :: 0 <= k < i ==> !Covers(Views(services)[k], handle)
      {
        i := i + 1;
      }
      FirstIndexIs(Views(services), (s: Service) => Covers(s, handle), i);
      if i == |services| {
        return None;
      }
      var s := services[i];
      TidySize(s.View());
      return s.attributes[handle - s.start];
    }

    method ReadByTypeFrom(from: int, to: int, uuid: Uuid) returns (found: seq<Attribute>)
      requires Valid()
      ensures found == ReadByType(View().services, from, to, uuid)
    {
      hide Views, Tidy, ScanSlots, ReadByType;
      found := [];
      var i := 0;
      ReadByTypeEnds(from, to, uuid);
      while i < |services|
        invariant 0 <= i <= |services|
        invariant ReadByType(Views(services), from, to, uuid)
                  == found + ReadByType(Views(services)[i..], from, to, uuid)
      {
        ReadByTypeAt(Views(services), i, from, to, uuid);
        if services[i].active {
          found := services[i].ScanInto(from, to, OfType(uuid), found);
        }
        i := i + 1;
      }
      assert Views(services)[i..] == [];
    }

    method FindInformationFrom(from: int, to: int) returns (found: seq<Attribute>)
      requires Valid()
      ensures found == FindInformation(View().services, from, to)
    {
      hide Views, Tidy, ScanSlots, FindInformation;
      found := [];
      var i := 0;
      FindInformationEnds(from, to);
      while i < |services|
        invariant 0 <= i <= |services|
        invariant FindInformation(Views(services), from, to) == found + FindInformation(Views(services)[i..], from, to)
      {
        var s := services[i];
        FindInformationAt(Views(services), i, from, to);
        if s.active && !(s.start + s.num - 1 < from) {
          found := s.ScanInto(from, to, Any(), found);
        }
        i := i + 1;
      }
      assert Views(services)[i..] == [];
    }

    method ReadByGroupTypeFrom(from: int, to: int, kind: Uuid) returns (found: seq<Attribute>)
      requires Valid()
      ensures AllTidy(View().services) && found == ReadByGroup(View().services, from, to, kind, 0)
    {
      hide Views, Tidy, Same, ReadByGroup, AllTidy, Used;
      found := [];
      var size := 0;
      var i := 0;
      ViewsTidy(services);
      ghost var vs := Views(services);
      while i < |services|
        invariant 0 <= i <= |services|
        invariant AllTidy(vs[i..])
        invariant ReadByGroup(vs, from, to, kind, 0) == found + ReadByGroup(vs[i..], from, to, kind, size)
      {
        ReadByGroupAt(vs, i, from, to, kind, size);
        HeadIs(vs[i]);
        var declaration := services[i].attributes[0].value;
        if services[i].active && Same(kind, declaration.uuid) && from <= declaration.handle <= to {
          if size == 0 {
            size := |declaration.value|;
          } else if size != |declaration.value| {
            return;
          }
          found := found + [declaration];
        }
        i := i + 1;
      }
      assert vs[i..] == [];
      ReadByGroupEnds(from, to, kind, size);
    }

    method ClearRangeOf(from: int, to: int) returns (ok: bool)
      requires Valid()
      modifies this
      ensures Valid() && View() == ClearRange(old(View()), from, to) && ok == (from <= to)
    {
      hide Views, Tidy, Distinct, From, Filter;
      if from > to {
        return false;
      }
      ghost var p := (s: Service) => !Overlaps(s, from, to);
      var kept: seq<ServiceTable> := [];
      DistinctEmpty(services);
      var i := 0;
      while i < |services|
        invariant 0 <= i <= |services| && services == old(services) && nextHandle == old(nextHandle)
        invariant Distinct(services)
        invariant Views(kept) + Filter(Views(services)[i..], p) == Filter(Views(services), p)
        invariant From(kept, services, i)
        invariant Distinct(kept)
      {
        var s := services[i];
        FilterAt(Views(services), i, p);
        FromMore(services, i, kept);
        if !(s.start <= to && s.start + s.num - 1 >= from) {
          DistinctPush(services, i, kept);
          ViewsPush(kept, s);
          kept := kept + [s];
        }
        i := i + 1;
      }
      assert Views(services)[i..] == [];
      FilterEmptyList(p);
      KeptValid(services, kept);
      services := kept;
      return true;
    }
  }

  ghost predicate Distinct(ss: seq<ServiceTable>) {
    forall i, j :: 0 <= i < j < |ss| ==> ss[i] != ss[j] && ss[i].attributes != ss[j].attributes
  }

  /** All of them are among the first i. */
  ghost predicate From(kept: seq<ServiceTable>, ss: seq<ServiceTable>, i: nat)
    requires i <= |ss|
  {
    forall s :: s in kept ==> s in ss[..i]
  }

  lemma FromMore(ss: seq<ServiceTable>, i: nat, kept: seq<ServiceTable>)
    requires i < |ss| && From(kept, ss, i)
    ensures From(kept, ss, i + 1) && From(kept + [ss[i]], ss, i + 1)
  {
    assert ss[..i + 1] == ss[..i] + [ss[i]];
  }

  lemma KeptValid(ss: seq<ServiceTable>, kept: seq<ServiceTable>)
    requires From(kept, ss, |ss|)
    ensures forall k :: 0 <= k < |kept| ==> kept[k] in ss
  {
    assert ss[..|ss|] == ss;
  }

  lemma FilterEmptyList(p: Service -> bool)
    ensures Filter([], p) == []
  {
  }

  lemma DistinctPush(ss: seq<ServiceTable>, i: nat, kept: seq<ServiceTable>)
    requires Distinct(ss) && i < |ss| && Distinct(kept) && From(kept, ss, i)
    ensures Distinct(kept + [ss[i]])
  {
    var r := kept + [ss[i]];
    forall k | 0 <= k < |kept|
      ensures kept[k] != ss[i] && kept[k].attributes != ss[i].attributes
    {
      assert kept[k] in ss[..i];
    }
  }

  lemma DistinctEmpty(ss: seq<ServiceTable>)
    ensures Distinct([]) && From([], ss, 0)
  {
  }

  lemma DistinctInsert(ss: seq<ServiceTable>, k: nat, s: ServiceTable)
    requires Distinct(ss) && k <= |ss| && forall i :: 0 <= i < |ss| ==> ss[i] != s && ss[i].attributes != s.attributes
    ensures Distinct(InsertAt(ss, k, s))
  {
  }

  lemma AllIn(ss: seq<ServiceTable>, k: nat, s: ServiceTable)
    requires k <= |ss|
    ensures forall x :: x in InsertAt(ss, k, s) <==> x in ss || x == s
  {
    Slices(ss, k, s);
    assert ss == ss[..k] + ss[k..];
  }

  lemma ViewsPush(ss: seq<ServiceTable>, s: ServiceTable)
    ensures Views(ss + [s]) == Views(ss) + [s.View()]
  {
    hide Views;
  }

  lemma ViewsInsert(ss: seq<ServiceTable>, k: nat, s: ServiceTable)
    requires k <= |ss|
    ensures Views(InsertAt(ss, k, s)) == InsertAt(Views(ss), k, s.View())
  {
    hide Views;
  }

  // ---- one step of each scan, on values

  lemma FilterAt(vs: seq<Service>, i: nat, p: Service -> bool)
    requires i < |vs|
    ensures Filter(vs[i..], p) == if p(vs[i]) then [vs[i]] + Filter(vs[i + 1..], p) else Filter(vs[i + 1..], p)
  {
    assert vs[i..][1..] == vs[i + 1..];
  }

  lemma FindLocEnds(from: int, to: int)
    ensures FindLoc([], from, to) == At(0)
  {
  }

  lemma FindLocAt(vs: seq<Service>, i: nat, from: int, to: int)
    requires i < |vs|
    ensures FindLoc(vs[i..], from, to)
            == if Touches(vs[i], from, to) then Refused
               else if to < vs[i].start then At(0)
               else Shifted(FindLoc(vs[i + 1..], from, to), 1)
  {
    assert vs[i..][1..] == vs[i + 1..];
  }

  lemma ReadByTypeAt(vs: seq<Service>, i: nat, from: int, to: int, uuid: Uuid)
    requires i < |vs|
    ensures ReadByType(vs[i..], from, to, uuid)
            == (if vs[i].active then ScanSlots(vs[i].slots, from, to, OfType(uuid)) else [])
            + ReadByType(vs[i + 1..], from, to, uuid)
  {
    hide ScanSlots, OfType;
    assert vs[i..][1..] == vs[i + 1..];
  }

  lemma ReadByTypeEnds(from: int, to: int, uuid: Uuid)
    ensures ReadByType([], from, to, uuid) == []
  {
  }

  lemma FindInformationAt(vs: seq<Service>, i: nat, from: int, to: int)
    requires i < |vs|
    ensures FindInformation(vs[i..], from, to)
            == (if vs[i].active && End(vs[i]) >= from then ScanSlots(vs[i].slots, from, to, Any()) else [])
               + FindInformation(vs[i + 1..], from, to)
  {
    hide ScanSlots, Any;
    assert vs[i..][1..] == vs[i + 1..];
  }

  lemma FindInformationEnds(from: int, to: int)
    ensures FindInformation([], from, to) == []
  {
  }

  lemma ReadByGroupAt(vs: seq<Service>, i: nat, from: int, to: int, kind: Uuid, size: int)
    requires i < |vs| && AllTidy(vs[i..])
    ensures AllTidy(vs[i + 1..]) && Tidy(vs[i])
    ensures ReadByGroup(vs[i..], from, to, kind, size)
            == if !GroupWanted(vs[i], from, to, kind) then ReadByGroup(vs[i + 1..], from, to, kind, size)
               else if size != 0 && size != |Head(vs[i]).value| then []
               else [Head(vs[i])] + ReadByGroup(vs[i + 1..], from, to, kind, |Head(vs[i]).value|)
  {
    hide Views, Tidy, GroupWanted;
    assert vs[i..][1..] == vs[i + 1..] && vs[i..][0] == vs[i];
    var rest := vs[i + 1..];
    assert forall k :: 0 <= k < |rest| ==> rest[k] == vs[i..][k + 1];
  }

  lemma ReadByGroupEnds(from: int, to: int, kind: Uuid, size: int)
    ensures AllTidy([]) && ReadByGroup([], from, to, kind, size) == []
  {
  }

  function Shifted(p: Place, k: int): Place { if p.Refused? then Refused else At(p.index + k) }

  ghost function Views(ss: seq<ServiceTable>): (r: seq<Service>)
    reads ss, set s | s in ss :: s.attributes
    ensures |r| == |ss| && forall i :: 0 <= i < |ss| ==> r[i] == ss[i].View()
  {
    if |ss| == 0 then [] else [ss[0].View()] + Views(ss[1..])
  }

  lemma ViewsTidy(ss: seq<ServiceTable>)
    requires forall i :: 0 <= i < |ss| ==> ss[i].Valid()
    ensures AllTidy(Views(ss))
  {
    hide Views, Tidy;
  }

  lemma TidySize(s: Service)
    requires Tidy(s)
    ensures |s.slots| == s.num >= 1
  {
  }

  lemma HeadIs(s: Service)
    requires Tidy(s)
    ensures s.num >= 1 && |s.slots| == s.num && s.slots[0] == Some(Head(s))
  {
  }

  lemma HandleAt(s: Service, i: nat)
    requires Tidy(s) && i < Used(s.slots)
    ensures s.slots[i].Some? && s.slots[i].value.handle == s.start + i
    ensures 1 <= Used(s.slots) <= s.num
  {
  }

  lemma FreeIndexIs(s: Service, offset: nat)
    requires Tidy(s)
    ensures var n := Used(s.slots);
            1 <= n <= s.num && FreeIndex(s, offset) == if n + offset < s.num then n else 0
  {
  }
}
