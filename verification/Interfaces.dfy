/** Network interfaces, and the lists of them that applications configure. */
module Interfaces {
  import opened Common

  datatype Netint = Netint(ipType: nat, index: nat)

  /** An entry of an interface list; `usable` is the outcome of its validation. */
  datatype Interface = Interface(netint: Netint, usable: bool)

  /** The usable interfaces of a list, in order and without repetitions. */
  function Usable(listed: seq<Interface>): seq<Netint> {
    if listed == [] then [] else
      var front, last := Usable(listed[..|listed| - 1]), listed[|listed| - 1];
      if last.usable && last.netint !in front then front + [last.netint] else front
  }

  lemma {:induction false} UsableExactly(listed: seq<Interface>)
    ensures forall n :: n in Usable(listed) <==> Interface(n, true) in listed
    ensures forall i, j | 0 <= i < j < |Usable(listed)| :: Usable(listed)[i] != Usable(listed)[j]
  {
    if listed != [] {
      var front, last := listed[..|listed| - 1], listed[|listed| - 1];
      UsableExactly(front);
      assert listed == front + [last];
      assert forall n | n in Usable(front) :: n != last.netint || last.netint in Usable(front);
    }
  }

  method CollectUsable(listed: seq<Interface>) returns (netints: seq<Netint>)
    ensures netints == Usable(listed)
  {
    netints := [];
    for i := 0 to |listed|
      invariant netints == Usable(listed[..i])
    {
      assert listed[..i + 1][..i] == listed[..i];
      if listed[i].usable && listed[i].netint !in netints {
        netints := netints + [listed[i].netint];
      }
    }
    assert listed[..|listed|] == listed;
  }

  lemma NothingUsable(listed: seq<Interface>)
    ensures Usable(listed) == [] <==> !exists i :: 0 <= i < |listed| && listed[i].usable
  {
    UsableExactly(listed);
    if i :| 0 <= i < |listed| && listed[i].usable {
      assert Interface(listed[i].netint, true) in listed;
    }
    if Usable(listed) != [] {
      var n := Usable(listed)[0];
      assert n in Usable(listed);
      var i :| 0 <= i < |listed| && listed[i] == Interface(n, true);
      assert listed[i].usable;
    }
  }

  /** A list is refused when none of its interfaces is usable, unless it asks for none. */
  function ResetOutcome(listed: seq<Interface>, noNetints: bool): Status {
    if noNetints || Usable(listed) != [] then Ok else ErrNoNetints
  }
}
