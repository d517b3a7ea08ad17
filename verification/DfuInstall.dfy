/** The attempt loop of dfu on a lawful link: whatever fails on the way, success means that
    both packages are on the device. */
module DfuInstall {
  import opened Crc32
  import opened DfuHost
  import opened DfuDevice
  import opened DfuDelivery

  ghost predicate BothFit(d: Device, dat: seq<Octet>, bin: seq<Octet>) {
    Fits(d, dat, Command, d.blockSize) && Fits(d, bin, Data, d.blockSize)
  }

  ghost predicate BothInstalled(d: Device, dat: seq<Octet>, bin: seq<Octet>) {
    d.command == Obj(dat, [], []) && d.data == Obj(bin, [], [])
  }

  lemma AttemptInstalls(link: Link, d: Device, dat: seq<Octet>, bin: seq<Octet>, mtu: nat, env: Env, dontResume: bool)
    requires mtu >= DEFAULT_MTU && KeepsLength(link) && BothFit(d, dat, bin)
    requires Safe(d.command, dat) && Safe(d.data, bin)
    requires Always(link, d, Attempt(dat, bin, mtu, env, dontResume).log, Lawful)
    ensures var r := Attempt(dat, bin, mtu, env, dontResume);
            var d' := Observe(link, d, r.log);
            && r.outcome != Undefined
            && (r.outcome == Code(SUCCESS) ==> BothInstalled(d', dat, bin))
            && Safe(d'.command, dat) && Safe(d'.data, bin) && d'.blockSize == d.blockSize
  {
    var r := SendPackage(dat, Command, mtu, env, dontResume);
    var d1 := Observe(link, d, r.log);
    if r.outcome == Code(SUCCESS) {
      var q := SendPackage(bin, Data, mtu, r.env, r.dontResume);
      Compose(link, d, r.log, q.log, Lawful);
      PackageInstalled(link, d, dat, Command, mtu, env, dontResume);
      PackageInstalled(link, d1, bin, Data, mtu, r.env, r.dontResume);
    } else {
      PackageInstalled(link, d, dat, Command, mtu, env, dontResume);
    }
  }

  /** dfu reports success only if the device has executed exactly the init package and
      exactly the firmware, however many attempts failed before and wherever they failed. */
  lemma {:induction false} SuccessMeansInstalled(
    link: Link, d: Device, dat: seq<Octet>, bin: seq<Octet>, mtu: nat, n: nat,
    registers: seq<bool>, env: Env, dontResume: bool)
    requires mtu >= DEFAULT_MTU && KeepsLength(link) && BothFit(d, dat, bin)
    requires Safe(d.command, dat) && Safe(d.data, bin)
    requires Always(link, d, Attempts(dat, bin, mtu, n, registers, env, dontResume).log, Lawful)
    ensures var r := Attempts(dat, bin, mtu, n, registers, env, dontResume);
            && r.outcome != Undefined
            && (r.outcome == Code(SUCCESS) ==> BothInstalled(Observe(link, d, r.log), dat, bin))
    decreases n
  {
    if n > 0 && |registers| > 0 && registers[0] {
      var r := Attempt(dat, bin, mtu, env, dontResume);
      if r.outcome == Undefined || r.outcome == Code(SUCCESS) {
        AttemptInstalls(link, d, dat, bin, mtu, env, dontResume);
      } else {
        var rest := Attempts(dat, bin, mtu, n - 1, registers[1..], r.env, r.dontResume);
        Compose(link, d, r.log, rest.log, Lawful);
        AttemptInstalls(link, d, dat, bin, mtu, env, dontResume);
        SuccessMeansInstalled(link, Observe(link, d, r.log), dat, bin, mtu, n - 1, registers[1..], r.env, r.dontResume);
      }
    }
  }
}
