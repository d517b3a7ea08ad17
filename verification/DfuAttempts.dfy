/** The attempts of dfu: how many there are, and which of them decides. */
module DfuAttempts {
  import opened Arith
  import opened Crc32
  import opened DfuHost
  import P = DfuProtocol

  /** What is to be installed, over which MTU. */
  datatype Job = Job(dat: seq<Octet>, bin: seq<Octet>, mtu: nat)

  /** What an attempt finds: what the link will do, and whether resuming was given up. */
  datatype Turn = Turn(env: Env, dontResume: bool)

  function Init(j: Job, t: Turn): Run
    requires j.mtu >= 23
  {
    SendPackage(j.dat, Command, j.mtu, t.env, t.dontResume)
  }

  /** The firmware, after the init package. */
  function Firmware(j: Job, t: Turn): Run
    requires j.mtu >= 23
  {
    SendPackage(j.bin, Data, j.mtu, Init(j, t).env, Init(j, t).dontResume)
  }

  predicate Taken(r: Run) { r.outcome == Code(0x01) }

  predicate Succeeds(j: Job, t: Turn)
    requires j.mtu >= 23
  {
    Taken(Init(j, t)) && Taken(Firmware(j, t))
  }

  predicate Undefines(j: Job, t: Turn)
    requires j.mtu >= 23
  {
    Init(j, t).outcome == Undefined || (Taken(Init(j, t)) && Firmware(j, t).outcome == Undefined)
  }

  predicate Fails(j: Job, t: Turn)
    requires j.mtu >= 23
  {
    !Succeeds(j, t) && !Undefines(j, t)
  }

  /** The firmware goes out only after the init package was taken. */
  function LogOf(j: Job, t: Turn): seq<Event>
    requires j.mtu >= 23
  {
    Init(j, t).log + if Taken(Init(j, t)) then Firmware(j, t).log else []
  }

  function Later(j: Job, t: Turn): Turn
    requires j.mtu >= 23
  {
    var last := if Taken(Init(j, t)) then Firmware(j, t) else Init(j, t); Turn(last.env, last.dontResume)
  }

  /** What attempt number k finds. */
  function TurnAt(j: Job, t: Turn, k: nat): Turn
    requires j.mtu >= 23
    decreases k
  {
    if k == 0 then t else TurnAt(j, Later(j, t), k - 1)
  }

  /** The logs of the first k attempts. */
  function LogsOf(j: Job, t: Turn, k: nat): seq<Event>
    requires j.mtu >= 23
    decreases k
  {
    if k == 0 then [] else LogOf(j, t) + LogsOf(j, Later(j, t), k - 1)
  }

  /** The attempts for which the notification handlers can be registered. */
  function Leading(registers: seq<bool>): nat {
    if registers != [] && registers[0] then 1 + Leading(registers[1..]) else 0
  }

  /** Of at most n attempts, k have failed, and the one after them decides if there is one. */
  ghost predicate Decides(j: Job, t: Turn, m: nat, k: nat, r: Run)
    requires j.mtu >= 23
  {
    && k <= m
    && (forall i :: 0 <= i < k ==> Fails(j, TurnAt(j, t, i)))
    && var made := if k < m then k + 1 else m;
       && r.log == LogsOf(j, t, made)
       && Turn(r.env, r.dontResume) == TurnAt(j, t, made)
       && (if k == m then r.outcome == Code(0x0A)
           else if Succeeds(j, TurnAt(j, t, k)) then r.outcome == Code(0x01)
           else Undefines(j, TurnAt(j, t, k)) && r.outcome == Undefined)
  }

  lemma AttemptIs(j: Job, t: Turn)
    requires j.mtu >= 23
    ensures var r := Attempt(j.dat, j.bin, j.mtu, t.env, t.dontResume);
            && r.log == LogOf(j, t) && Turn(r.env, r.dontResume) == Later(j, t)
            && (r.outcome == Code(0x01) <==> Succeeds(j, t)) && (r.outcome == Undefined <==> Undefines(j, t))
  {
    hide SendPackage;
  }

  lemma DecidedLater(j: Job, t: Turn, m: nat, k: nat, r: Run)
    requires j.mtu >= 23 && m > 0 && Fails(j, t) && Decides(j, Later(j, t), m - 1, k, r)
    ensures Decides(j, t, m, k + 1, After(LogOf(j, t), r))
  {
    hide SendPackage, LogOf, Later, Succeeds, Undefines;
    forall i | 0 <= i < k + 1
      ensures Fails(j, TurnAt(j, t, i))
    {
      if i > 0 { assert Fails(j, TurnAt(j, Later(j, t), i - 1)); }
    }
    hide Fails;
  }

  /** dfu tries again until an attempt succeeds, as often as it may and as long as it can
      register; in the end it reports what the last attempt decided, or a failed operation. */
  lemma {:induction false} RetriesUntilOneSucceeds(j: Job, t: Turn, n: nat, registers: seq<bool>)
    requires j.mtu >= 23
    ensures exists k: nat :: Decides(j, t, Min(n, Leading(registers)), k,
                                Attempts(j.dat, j.bin, j.mtu, n, registers, t.env, t.dontResume))
    decreases n
  {
    hide Attempt, Succeeds, Undefines, Later, LogOf;
    var m := Min(n, Leading(registers));
    var whole := Attempts(j.dat, j.bin, j.mtu, n, registers, t.env, t.dontResume);
    if n == 0 || |registers| == 0 || !registers[0] {
      assert Decides(j, t, m, 0, whole);
    } else {
      var r := Attempt(j.dat, j.bin, j.mtu, t.env, t.dontResume);
      AttemptIs(j, t);
      if r.outcome == Undefined || r.outcome == Code(SUCCESS) {
        DecidedAtOnce(j, t, m, r);
        assert Decides(j, t, m, 0, whole);
      } else {
        RetriesUntilOneSucceeds(j, Later(j, t), n - 1, registers[1..]);
        var rest := Attempts(j.dat, j.bin, j.mtu, n - 1, registers[1..], r.env, r.dontResume);
        var k: nat :| Decides(j, Later(j, t), m - 1, k, rest);
        hide Decides;
        DecidedLater(j, t, m, k, rest);
        assert whole == After(LogOf(j, t), rest);
      }
    }
  }

  lemma DecidedAtOnce(j: Job, t: Turn, m: nat, r: Run)
    requires j.mtu >= 23 && m > 0 && r.log == LogOf(j, t) && Turn(r.env, r.dontResume) == Later(j, t)
    requires (r.outcome == Code(0x01) && Succeeds(j, t)) || (r.outcome == Undefined && Undefines(j, t))
    ensures Decides(j, t, m, 0, r)
  {
    hide SendPackage, LogOf, Later;
    assert TurnAt(j, t, 1) == Later(j, t) && LogsOf(j, t, 1) == LogOf(j, t) by {
      assert TurnAt(j, Later(j, t), 0) == Later(j, t) && LogsOf(j, Later(j, t), 0) == [];
    }
    if Taken(Init(j, t)) && Taken(Firmware(j, t)) { assert !Undefines(j, t); }
  }

  // ---- counted in the log

  /** How often the init package was begun. */
  function Begun(log: seq<Event>): nat {
    if |log| == 0 then 0 else (if log[0] == Sent(Select(Command)) then 1 else 0) + Begun(log[1..])
  }

  lemma {:induction false} BegunAppend(a: seq<Event>, b: seq<Event>)
    ensures Begun(a + b) == Begun(a) + Begun(b)
    decreases |a|
  {
    if |a| == 0 {
      assert a + b == b;
    } else {
      assert (a + b)[0] == a[0] && (a + b)[1..] == a[1..] + b;
      BegunAppend(a[1..], b);
    }
  }

  /** The host selects only at the beginning. */
  predicate BeyondSelect(h: P.Host) { !(h.phase.Ask? && h.phase.request.Select?) }

  lemma SelectsNoMore(t: P.Task, h: P.Host, e: Event)
    requires BeyondSelect(h) && !P.See(t, h, e).phase.Lost?
    ensures BeyondSelect(P.See(t, h, e)) && e != Sent(Select(Command))
  {
    hide P.Heard;
  }

  lemma {:induction false} NoneBegun(t: P.Task, h: P.Host, log: seq<Event>)
    requires BeyondSelect(h) && !P.Read(t, h, log).phase.Lost?
    ensures Begun(log) == 0
    decreases |log|
  {
    hide P.See, BeyondSelect;
    if |log| > 0 {
      if P.See(t, h, log[0]).phase.Lost? { P.LostForEver(t, P.See(t, h, log[0]), log[1..]); }
      SelectsNoMore(t, h, log[0]);
      NoneBegun(t, P.See(t, h, log[0]), log[1..]);
    }
  }

  lemma PackageBegun(pkg: seq<Octet>, kind: ObjType, mtu: nat, env: Env, dontResume: bool)
    requires mtu >= 23
    ensures Begun(SendPackage(pkg, kind, mtu, env, dontResume).log) == if kind.Command? then 1 else 0
  {
    var t := P.Task(pkg, kind, mtu);
    var h := P.Start(t, env, dontResume);
    var log := SendPackage(pkg, kind, mtu, env, dontResume).log;
    hide SendPackage;
    P.RunIsRead(t, env, dontResume);
    assert |log| > 0 && log[0] == Sent(Select(kind)) by { StartsWithSelect(pkg, kind, mtu, env, dontResume); }
    NoneBegun(t, P.See(t, h, log[0]), log[1..]);
  }

  lemma StartsWithSelect(pkg: seq<Octet>, kind: ObjType, mtu: nat, env: Env, dontResume: bool)
    requires mtu >= 23
    ensures var log := SendPackage(pkg, kind, mtu, env, dontResume).log; |log| > 0 && log[0] == Sent(Select(kind))
  {
    hide Selected;
  }

  lemma {:induction false} EachBegins(j: Job, t: Turn, k: nat)
    requires j.mtu >= 23
    ensures Begun(LogsOf(j, t, k)) == k
    decreases k
  {
    hide SendPackage, Begun;
    assert Begun([]) == 0 by { BegunNothing(); }
    if k > 0 {
      PackageBegun(j.dat, Command, j.mtu, t.env, t.dontResume);
      PackageBegun(j.bin, Data, j.mtu, Init(j, t).env, Init(j, t).dontResume);
      BegunAppend(Init(j, t).log, if Taken(Init(j, t)) then Firmware(j, t).log else []);
      BegunAppend(LogOf(j, t), LogsOf(j, Later(j, t), k - 1));
      EachBegins(j, Later(j, t), k - 1);
    }
  }

  lemma BegunNothing()
    ensures Begun([]) == 0
  {
  }

  /** Told from the log: unless it succeeds, or does what C leaves undefined, dfu has begun as
      many attempts as it may and can; and it succeeds if and only if an attempt succeeds that
      none but failed ones come before. */
  lemma AttemptsCounted(j: Job, t: Turn, n: nat, registers: seq<bool>)
    requires j.mtu >= 23
    ensures var r := Attempts(j.dat, j.bin, j.mtu, n, registers, t.env, t.dontResume);
            var m := Min(n, Leading(registers));
            && Begun(r.log) <= m
            && (r.outcome != Code(0x01) && r.outcome != Undefined ==> r.outcome == Code(0x0A) && Begun(r.log) == m)
            && (r.outcome == Code(0x01) <==> exists k: nat :: k < m && FirstGood(j, t, k))
  {
    hide SendPackage, Attempts, Begun, Succeeds, Undefines, TurnAt, LogsOf;
    RetriesUntilOneSucceeds(j, t, n, registers);
    var m := Min(n, Leading(registers));
    var r := Attempts(j.dat, j.bin, j.mtu, n, registers, t.env, t.dontResume);
    var k: nat :| Decides(j, t, m, k, r);
    EachBegins(j, t, if k < m then k + 1 else m);
    if r.outcome == Code(0x01) { assert k < m && FirstGood(j, t, k); }
    forall i: nat | i < m && FirstGood(j, t, i)
      ensures r.outcome == Code(0x01)
    {
      DecidedByTheGood(j, t, m, k, i, r);
    }
  }

  lemma DecidedByTheGood(j: Job, t: Turn, m: nat, k: nat, i: nat, r: Run)
    requires j.mtu >= 23 && Decides(j, t, m, k, r) && i < m && FirstGood(j, t, i)
    ensures r.outcome == Code(0x01)
  {
    hide SendPackage, LogsOf, TurnAt, Succeeds, Undefines;
  }

  /** Attempt number k succeeds, and none before it. */
  ghost predicate FirstGood(j: Job, t: Turn, k: nat)
    requires j.mtu >= 23
  {
    Succeeds(j, TurnAt(j, t, k)) && forall i :: 0 <= i < k ==> Fails(j, TurnAt(j, t, i))
  }
}
