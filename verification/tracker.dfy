/**
  The supervisor window's device list. Each entry is a discovered port with a
  check box and the handle of the plot process started for it. One timer
  tick lists new ports, applies the start/restart/kill decision table to the
  listed ones and prunes entries whose port is gone. Processes are abstract:
  a handle is absent, alive or dead (its window was closed).
*/
module Tracker {

  datatype Handle = NoProcess | Alive | Dead

  datatype Item = Item(name: string, checked: bool, handle: Handle)

  /** What the tracker asks of the operating system. */
  datatype Command = Spawn(port: string) | Kill(port: string)

  /** On Windows a running process keeps its entry; elsewhere a missing device file removes it. */
  datatype Platform = Windows | Posix

  /** The result of deciding one entry: its new state and the commands issued. */
  datatype Decision = Decision(item: Item, cmds: seq<Command>)

  /** The state every decision leaves an entry in: no dead handle, and no process behind an unchecked box. */
  predicate Settled(it: Item) {
    it.handle != Dead && (!it.checked ==> it.handle == NoProcess)
  }

  /**
    The decision table for a listed port: a checked box without a process
    starts one; a checked box whose process died restarts it in auto mode and
    otherwise drops the handle and clears the box; an unchecked box with a
    handle kills it; an unchecked idle box is checked in auto mode.
  */
  function Reconcile(it: Item, auto: bool): (d: Decision)
    ensures d.item.name == it.name
    ensures Settled(d.item)
    ensures it.checked && it.handle == Alive ==> d == Decision(it, [])
    ensures (Spawn(it.name) in d.cmds) <==> (it.handle != Alive && d.item.handle == Alive)
    ensures (Kill(it.name) in d.cmds) <==> (it.handle != NoProcess && d.item.handle == NoProcess)
    ensures forall c :: c in d.cmds ==> c.port == it.name
    ensures d.item.checked != it.checked ==>
              (auto && !it.checked && it.handle == NoProcess) || (!auto && it.checked && it.handle == Dead)
    // someone just checked it, or (auto) its window was closed: start a plot
    ensures it.checked && (it.handle == NoProcess || (auto && it.handle == Dead)) ==>
              d == Decision(it.(handle := Alive), [Spawn(it.name)])
    // (manual) its window was closed: drop the handle and clear the box
    ensures !auto && it.checked && it.handle == Dead ==>
              d.item == Item(it.name, false, NoProcess) && d.cmds == [Kill(it.name)]
    // someone just unchecked it: stop the plot
    ensures !it.checked && it.handle != NoProcess ==>
              d.item == Item(it.name, false, NoProcess) && d.cmds == [Kill(it.name)]
    // unchecked and idle: checked in auto mode, left alone in manual mode
    ensures !it.checked && it.handle == NoProcess ==> d.item.checked == auto && d.item.handle == NoProcess && d.cmds == []
  {
    if it.checked then
      match it.handle
      case NoProcess => Decision(it.(handle := Alive), [Spawn(it.name)])
      case Alive => Decision(it, [])
      case Dead =>
        if auto then Decision(it.(handle := Alive), [Spawn(it.name)])
        else Decision(Item(it.name, false, NoProcess), [Kill(it.name)])
    else if it.handle != NoProcess then
      Decision(it.(handle := NoProcess), [Kill(it.name)])
    else if auto then
      Decision(it.(checked := true), [])
    else
      Decision(it, [])
  }

  /** In manual mode one decision is final: deciding again changes nothing and issues nothing. */
  lemma ManualDecisionIsFinal(it: Item)
    ensures var d := Reconcile(it, false); Reconcile(d.item, false) == Decision(d.item, [])
  {
  }

  /** In auto mode every listed port runs a checked plot after at most three ticks without interference. */
  lemma AutoLaunchesEveryPort(it: Item)
    ensures var d1 := Reconcile(it, true);
            var d2 := Reconcile(d1.item, true);
            Reconcile(d2.item, true).item == Item(it.name, true, Alive)
  {
  }

  // ---------------------------------------------------------------------------
  // Looking up entries

  /** The position of the first entry with that name, or the list's length. */
  function IndexOf(items: seq<Item>, name: string): (k: nat)
    ensures k <= |items|
    ensures k < |items| ==> items[k].name == name
    ensures forall m :: 0 <= m < k ==> items[m].name != name
  {
    if |items| == 0 then 0
    else if items[0].name == name then 0
    else 1 + IndexOf(items[1..], name)
  }

  /** The list's exact-match lookup, scanning from the top. */
  method FindItem(items: seq<Item>, name: string) returns (k: nat)
    ensures k == IndexOf(items, name)
  {
    k := 0;
    while k < |items| && items[k].name != name
      invariant k <= IndexOf(items, name)
      invariant forall m :: 0 <= m < k ==> items[m].name != name
    {
      k := k + 1;
    }
  }

  /** No two entries share a name. */
  ghost predicate Distinct(items: seq<Item>) {
    forall a, b :: 0 <= a < b < |items| ==> items[a].name != items[b].name
  }

  ghost predicate Listed(items: seq<Item>, name: string) {
    exists k :: 0 <= k < |items| && items[k].name == name
  }

  // ---------------------------------------------------------------------------
  // One pass over the discovered ports

  datatype Pass = Pass(items: seq<Item>, cmds: seq<Command>)

  /** Visiting one port: an unlisted port is appended unchecked and idle; a listed one is decided. */
  function Visit(items: seq<Item>, port: string, auto: bool): (p: Pass)
    ensures var k := IndexOf(items, port);
            if k == |items| then p == Pass(items + [Item(port, false, NoProcess)], [])
            else |p.items| == |items| && p.items[k] == Reconcile(items[k], auto).item
                 && (forall m :: 0 <= m < |items| && m != k ==> p.items[m] == items[m])
                 && p.cmds == Reconcile(items[k], auto).cmds
  {
    var k := IndexOf(items, port);
    if k == |items| then Pass(items + [Item(port, false, NoProcess)], [])
    else
      var d := Reconcile(items[k], auto);
      Pass(items[k := d.item], d.cmds)
  }

  /** The ports visited in order, the entries and commands accumulating. */
  function ApplyPorts(items: seq<Item>, ports: seq<string>, auto: bool): Pass
  {
    if |ports| == 0 then Pass(items, [])
    else
      var p := ApplyPorts(items, ports[..|ports| - 1], auto);
      var v := Visit(p.items, ports[|ports| - 1], auto);
      Pass(v.items, p.cmds + v.cmds)
  }

  /** Visiting one more port extends the pass by that port's visit. */
  lemma ApplyPortsSnoc(items: seq<Item>, ports: seq<string>, n: nat, auto: bool)
    requires n < |ports|
    ensures var p := ApplyPorts(items, ports[..n], auto);
            var v := Visit(p.items, ports[n], auto);
            ApplyPorts(items, ports[..n + 1], auto) == Pass(v.items, p.cmds + v.cmds)
  {
    assert ports[..n + 1][..n] == ports[..n];
  }

  /** Every command a pass issues is for one of the ports it visited. */
  lemma {:induction false} PassCommandsNamePorts(items: seq<Item>, ports: seq<string>, auto: bool)
    ensures forall c :: c in ApplyPorts(items, ports, auto).cmds ==> c.port in ports
    decreases |ports|
  {
    if |ports| > 0 {
      var front := ports[..|ports| - 1];
      PassCommandsNamePorts(items, front, auto);
      var p := ApplyPorts(items, front, auto);
      var v := Visit(p.items, ports[|ports| - 1], auto);
      assert ports == front + [ports[|ports| - 1]];
      forall c | c in p.cmds + v.cmds
        ensures c.port in ports
      {
        if c in p.cmds {
          assert c.port in front;
        }
      }
    }
  }

  /** Whether an entry survives the pruning: its port is still there, or (on Windows) its process is alive. */
  predicate Keep(it: Item, ports: seq<string>, platform: Platform) {
    it.name in ports || (platform == Windows && it.handle == Alive)
  }

  /** The entries that survive the pruning, in their order. */
  function Prune(items: seq<Item>, ports: seq<string>, platform: Platform): (r: seq<Item>)
    ensures forall it :: it in r ==> it in items && Keep(it, ports, platform)
    ensures forall it :: it in items && Keep(it, ports, platform) ==> it in r
  {
    if |items| == 0 then []
    else (if Keep(items[0], ports, platform) then [items[0]] else []) + Prune(items[1..], ports, platform)
  }

  // ---------------------------------------------------------------------------
  // Properties of one tick

  /** Visiting ports never unlists an entry and never reorders the entries already there. */
  lemma {:induction false} ApplyPortsExtends(items: seq<Item>, ports: seq<string>, auto: bool)
    ensures var r := ApplyPorts(items, ports, auto).items;
            |items| <= |r| && forall m :: 0 <= m < |items| ==> r[m].name == items[m].name
    decreases |ports|
  {
    if |ports| > 0 {
      ApplyPortsExtends(items, ports[..|ports| - 1], auto);
    }
  }

  /** After visiting the ports every one of them is listed. */
  lemma {:induction false} EveryPortListed(items: seq<Item>, ports: seq<string>, auto: bool)
    ensures forall q :: q in ports ==> Listed(ApplyPorts(items, ports, auto).items, q)
    decreases |ports|
  {
    if |ports| > 0 {
      var front := ports[..|ports| - 1];
      var last := ports[|ports| - 1];
      EveryPortListed(items, front, auto);
      var p := ApplyPorts(items, front, auto);
      var v := Visit(p.items, last, auto);
      ApplyPortsExtends(p.items, [last], auto);
      assert ApplyPorts(p.items, [last], auto).items == v.items by {
        assert [last][..0] == [];
      }
      forall q | q in ports
        ensures Listed(v.items, q)
      {
        if q == last {
          var k := IndexOf(p.items, last);
          assert v.items[k].name == last;
        } else {
          assert q in front;
          var m :| 0 <= m < |p.items| && p.items[m].name == q;
          assert v.items[m].name == q;
        }
      }
    }
  }

  /** Visiting ports keeps the names distinct: a port is appended only when it is not listed yet. */
  lemma {:induction false} ApplyPortsKeepsDistinct(items: seq<Item>, ports: seq<string>, auto: bool)
    requires Distinct(items)
    ensures Distinct(ApplyPorts(items, ports, auto).items)
    decreases |ports|
  {
    if |ports| > 0 {
      var front := ports[..|ports| - 1];
      ApplyPortsKeepsDistinct(items, front, auto);
      var p := ApplyPorts(items, front, auto);
      var v := Visit(p.items, ports[|ports| - 1], auto);
      assert forall m :: 0 <= m < |p.items| ==> v.items[m].name == p.items[m].name;
    }
  }

  /**
    With distinct names, after the pass every entry whose port was visited is
    settled: it was either just listed, or decided at least once.
  */
  lemma {:induction false} VisitedEntriesSettled(items: seq<Item>, ports: seq<string>, auto: bool)
    requires Distinct(items)
    ensures var r := ApplyPorts(items, ports, auto).items;
            forall m :: 0 <= m < |r| && r[m].name in ports ==> Settled(r[m])
    decreases |ports|
  {
    if |ports| > 0 {
      var front := ports[..|ports| - 1];
      var last := ports[|ports| - 1];
      VisitedEntriesSettled(items, front, auto);
      assert var r := ApplyPorts(items, front, auto).items;
            forall m :: 0 <= m < |r| && r[m].name in front ==> Settled(r[m]);
      ApplyPortsKeepsDistinct(items, front, auto);
      var p := ApplyPorts(items, front, auto);
      var v := Visit(p.items, last, auto);
      var k := IndexOf(p.items, last);
      assert ports == front + [last];
      forall m | 0 <= m < |v.items| && v.items[m].name in ports
        ensures Settled(v.items[m])
      {
        if m == k && k == |p.items| {
          assert v.items[m] == Item(last, false, NoProcess);
        } else if m == k {
          assert v.items[m] == Reconcile(p.items[k], auto).item;
        } else {
          assert m < |p.items|;
          assert v.items[m] == p.items[m];
          assert p.items[m].name != last by {
            if k < |p.items| {
              assert p.items[k].name == last;
            }
          }
          assert p.items[m].name in front;
        }
      }
    }
  }

  /**
    After a tick every discovered port is listed, and every entry left is
    for a discovered port or, on Windows, still runs a live process.
  */
  lemma TickListsExactlyThePorts(items: seq<Item>, ports: seq<string>, auto: bool, platform: Platform)
    ensures var r := Prune(ApplyPorts(items, ports, auto).items, ports, platform);
            && (forall q :: q in ports ==> Listed(r, q))
            && (forall it :: it in r ==> it.name in ports || (platform == Windows && it.handle == Alive))
  {
    var a := ApplyPorts(items, ports, auto).items;
    EveryPortListed(items, ports, auto);
    forall q | q in ports
      ensures Listed(Prune(a, ports, platform), q)
    {
      PruneKeepsListed(a, ports, platform, q);
    }
  }

  /** An entry for a present port survives the pruning. */
  lemma PruneKeepsListed(items: seq<Item>, ports: seq<string>, platform: Platform, q: string)
    requires q in ports && Listed(items, q)
    ensures Listed(Prune(items, ports, platform), q)
  {
    var r := Prune(items, ports, platform);
    var m :| 0 <= m < |items| && items[m].name == q;
    assert items[m] in items;
    var n :| 0 <= n < |r| && r[n] == items[m];
  }

  // ---------------------------------------------------------------------------
  // The Windows port list

  /** The ports the tracker can manage on Windows: the resources whose serial number is known. */
  function ManageablePorts(names: seq<string>, serials: seq<string>): (ports: seq<string>)
    ensures forall q :: q in ports <==>
              exists k :: 0 <= k < |names| && k < |serials| && names[k] == q && serials[k] != "n/a"
  {
    if |names| == 0 || |serials| == 0 then []
    else
      var rest := ManageablePorts(names[1..], serials[1..]);
      assert forall k :: 1 <= k < |names| && k < |serials| ==>
               names[1..][k - 1] == names[k] && serials[1..][k - 1] == serials[k];
      (if serials[0] != "n/a" then [names[0]] else []) + rest
  }

  // ---------------------------------------------------------------------------
  // The tracker window

  /** The commands the Shutdown button issues: a kill for every entry holding a handle. */
  function KillAll(items: seq<Item>): (cmds: seq<Command>)
    ensures forall c :: c in cmds ==> c.Kill?
    ensures forall n :: Kill(n) in cmds <==> exists k :: 0 <= k < |items| && items[k].name == n && items[k].handle != NoProcess
  {
    if |items| == 0 then []
    else
      var rest := KillAll(items[1..]);
      assert forall k :: 1 <= k < |items| ==> items[1..][k - 1] == items[k];
      (if items[0].handle != NoProcess then [Kill(items[0].name)] else []) + rest
  }

  /** An entry as the tracker lists a newly discovered port: unchecked and without a process. */
  predicate Idle(it: Item) {
    !it.checked && it.handle == NoProcess
  }

  /** A manual-mode pass over idle entries only lists new ports: every entry stays idle and nothing is issued. */
  lemma {:induction false} ManualPassOverIdleEntries(items: seq<Item>, ports: seq<string>)
    requires forall k :: 0 <= k < |items| ==> Idle(items[k])
    ensures var p := ApplyPorts(items, ports, false);
            p.cmds == [] && forall k :: 0 <= k < |p.items| ==> Idle(p.items[k])
    decreases |ports|
  {
    if |ports| > 0 {
      var front := ports[..|ports| - 1];
      ManualPassOverIdleEntries(items, front);
      var p := ApplyPorts(items, front, false);
      var k := IndexOf(p.items, ports[|ports| - 1]);
      if k < |p.items| {
        assert Idle(p.items[k]);
      }
    }
  }

  /** Pruning keeps a subsequence, so distinct names stay distinct. */
  lemma {:induction false} PruneKeepsDistinct(items: seq<Item>, ports: seq<string>, platform: Platform)
    requires Distinct(items)
    ensures Distinct(Prune(items, ports, platform))
    decreases |items|
  {
    if |items| > 0 {
      var rest := Prune(items[1..], ports, platform);
      assert Distinct(items[1..]);
      PruneKeepsDistinct(items[1..], ports, platform);
      forall b | 0 <= b < |rest|
        ensures rest[b].name != items[0].name
      {
        assert rest[b] in items[1..];
        var m :| 0 <= m < |items[1..]| && items[1..][m] == rest[b];
        assert items[m + 1] == rest[b];
      }
    }
  }

  class PowerMeterTracker {
    var items: seq<Item>
    var auto: bool

    /** The list never holds two entries for one port. */
    ghost predicate Valid()
      reads this
    {
      Distinct(items)
    }

    /**
      A fresh tracker starts in manual mode and runs its first tick at once,
      over the ports discovered then: it lists every one of them unchecked and
      idle, lists nothing else, and starts nothing.
    */
    constructor (ports: seq<string>, platform: Platform)
      ensures Valid() && !auto
      ensures items == Prune(ApplyPorts([], ports, false).items, ports, platform)
      ensures forall q :: q in ports ==> Listed(items, q)
      ensures forall k :: 0 <= k < |items| ==> items[k].name in ports && Idle(items[k])
    {
      items := [];
      auto := false;
      new;
      ManualPassOverIdleEntries([], ports);
      TickListsExactlyThePorts([], ports, false, platform);
      var cmds := MainLoop(ports, platform);
      forall k | 0 <= k < |items|
        ensures items[k].name in ports && Idle(items[k])
      {
        assert items[k] in ApplyPorts([], ports, false).items;
      }
    }

    /** The Auto button flips the mode. */
    method ToggleAuto()
      modifies this`auto
      ensures auto == !old(auto)
    {
      auto := !auto;
    }

    /** The Shutdown button kills every process the list holds. */
    method Shutdown() returns (cmds: seq<Command>)
      ensures cmds == KillAll(items)
    {
      cmds := [];
      var k := |items|;
      while k > 0
        invariant 0 <= k <= |items|
        invariant cmds == KillAll(items[k..])
      {
        k := k - 1;
        assert items[k..][1..] == items[k + 1..];
        if items[k].handle != NoProcess {
          cmds := [Kill(items[k].name)] + cmds;
        }
      }
      assert items[0..] == items;
    }

    /**
      One tick of the supervisor: visit the discovered ports in order, then
      drop, from the bottom of the list up, the entries that do not survive.
    */
    method MainLoop(ports: seq<string>, platform: Platform) returns (cmds: seq<Command>)
      requires Valid()
      modifies this`items
      ensures Valid()
      ensures items == Prune(ApplyPorts(old(items), ports, auto).items, ports, platform)
      ensures cmds == ApplyPorts(old(items), ports, auto).cmds
      ensures forall k :: 0 <= k < |items| && items[k].name in ports ==> Settled(items[k])
    {
      ghost var before := items;
      cmds := VisitPorts(ports);
      ApplyPortsKeepsDistinct(before, ports, auto);
      VisitedEntriesSettled(before, ports, auto);
      ghost var visited := items;
      PruneGone(ports, platform);
      PruneKeepsDistinct(visited, ports, platform);
      forall k | 0 <= k < |items| && items[k].name in ports
        ensures Settled(items[k])
      {
        assert items[k] in visited;
      }
    }

    /** The first loop of a tick: list new ports and decide the listed ones. */
    method VisitPorts(ports: seq<string>) returns (cmds: seq<Command>)
      modifies this`items
      ensures Pass(items, cmds) == ApplyPorts(old(items), ports, auto)
    {
      cmds := [];
      var n := 0;
      while n < |ports|
        invariant n <= |ports|
        invariant Pass(items, cmds) == ApplyPorts(old(items), ports[..n], auto)
      {
        var dev := ports[n];
        ApplyPortsSnoc(old(items), ports, n, auto);
        var k := FindItem(items, dev);
        if k == |items| {
          items := items + [Item(dev, false, NoProcess)];
        } else {
          var d := Reconcile(items[k], auto);
          items := items[k := d.item];
          cmds := cmds + d.cmds;
        }
        n := n + 1;
      }
      assert ports[..n] == ports;
    }

    /** The second loop of a tick: remove, bottom up, the entries that do not survive. */
    method PruneGone(ports: seq<string>, platform: Platform)
      modifies this`items
      ensures items == Prune(old(items), ports, platform)
    {
      ghost var visited := items;
      var i := |items|;
      assert visited[i..] == [];
      while i > 0
        invariant 0 <= i <= |visited|
        invariant items == visited[..i] + Prune(visited[i..], ports, platform)
      {
        i := i - 1;
        PruneStep(visited, i, items, ports, platform);
        if !Keep(items[i], ports, platform) {
          items := items[..i] + items[i + 1..];
        }
      }
      assert visited[0..] == visited;
    }
  }

  /**
    One step of the bottom-up removal: with entries 0..i untouched and the
    rest pruned, entry i is the original one, and keeping it or cutting it
    out leaves entries 0..i-1 untouched and the rest pruned.
  */
  lemma PruneStep(visited: seq<Item>, i: nat, items: seq<Item>, ports: seq<string>, platform: Platform)
    requires i < |visited|
    requires items == visited[..i + 1] + Prune(visited[i + 1..], ports, platform)
    ensures i < |items| && items[i] == visited[i]
    ensures Keep(items[i], ports, platform) ==> items == visited[..i] + Prune(visited[i..], ports, platform)
    ensures !Keep(items[i], ports, platform) ==> items[..i] + items[i + 1..] == visited[..i] + Prune(visited[i..], ports, platform)
  {
    PruneFrom(visited, i, ports, platform);
    assert visited[..i + 1] == visited[..i] + [visited[i]];
    CutOut(visited[..i], visited[i], Prune(visited[i + 1..], ports, platform), items);
  }

  /** Cutting the element at |pre| out of pre + [x] + rest leaves pre + rest. */
  lemma CutOut<T>(pre: seq<T>, x: T, rest: seq<T>, s: seq<T>)
    requires s == pre + [x] + rest
    ensures |pre| < |s| && s[|pre|] == x
    ensures s == pre + ([x] + rest)
    ensures s[..|pre|] + s[|pre| + 1..] == pre + rest
  {
    assert s[..|pre|] == pre && s[|pre| + 1..] == rest;
  }

  /** Pruning from index i decides entry i, then prunes the entries after it. */
  lemma PruneFrom(items: seq<Item>, i: nat, ports: seq<string>, platform: Platform)
    requires i < |items|
    ensures Prune(items[i..], ports, platform) ==
            (if Keep(items[i], ports, platform) then [items[i]] else []) + Prune(items[i + 1..], ports, platform)
  {
    assert items[i..][1..] == items[i + 1..];
  }
}
