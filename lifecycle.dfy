/** The lifecycle driver: `SetupProbes` and `StartProbes` walk the probe list
    in order, call Setup (resp. Start) on each probe and stop at the first
    error, which they return wrapped with the failing probe's label.

    The probes' own String, Setup and Start are not part of this model; what
    the driver can observe of them is given as `behaviour`, which yields a
    probe's label and the error (or nil) its Setup and its Start return. The
    ghost out-parameter `invoked` records, in call order, the list index of
    every probe whose Setup (resp. Start) was called. */
module Lifecycle {
  import opened Errors

  /** What the Probe interface lets the driver observe of one probe. */
  datatype Behaviour = Behaviour(name: string, setup: Option<Error>, start: Option<Error>)

  /** The context message both drivers attach to a probe's error. The setup
      path uses the word "start" too, exactly as probe/probe.go:64 does. */
  const WrapPrefix: string := "Could not start probe "

  /** The message names the probe: it is the fixed prefix followed by the label, and the label can be read back from it. */
  function WrapMessage(name: string): (msg: string)
    ensures |msg| == |WrapPrefix| + |name|
    ensures msg[..|WrapPrefix|] == WrapPrefix && msg[|WrapPrefix|..] == name
  {
    WrapPrefix + name
  }

  /** The calls recorded in `invoked` went to probes 0, 1, 2, ... in that order, once each. */
  ghost predicate InOrderFromFirst(invoked: seq<nat>)
  {
    forall j :: 0 <= j < |invoked| ==> invoked[j] == j
  }

  /** SetupProbes (probe/probe.go:60-68). */
  method SetupProbes<P>(probes: seq<P>, behaviour: P -> Behaviour) returns (err: Option<Error>, ghost invoked: seq<nat>)
    ensures InOrderFromFirst(invoked) && |invoked| <= |probes|
    ensures err == None <==> forall i :: 0 <= i < |probes| ==> behaviour(probes[i]).setup == None
    ensures err == None ==> |invoked| == |probes|
    ensures err != None ==>
      var k := |invoked| - 1;
      0 <= k &&
      (forall i :: 0 <= i < k ==> behaviour(probes[i]).setup == None) &&
      behaviour(probes[k]).setup != None &&
      err == Some(Wrapped(WrapMessage(behaviour(probes[k]).name), behaviour(probes[k]).setup.value))
  {
    invoked := [];
    for i := 0 to |probes|
      invariant |invoked| == i && InOrderFromFirst(invoked)
      invariant forall j :: 0 <= j < i ==> behaviour(probes[j]).setup == None
    {
      var p := probes[i];
      invoked := invoked + [i];
      var e := behaviour(p).setup;
      if e != None {
        return Some(Wrapped(WrapMessage(behaviour(p).name), e.value)), invoked;
      }
    }
    return None, invoked;
  }

  /** StartProbes (probe/probe.go:71-79). */
  method StartProbes<P>(probes: seq<P>, behaviour: P -> Behaviour) returns (err: Option<Error>, ghost invoked: seq<nat>)
    ensures InOrderFromFirst(invoked) && |invoked| <= |probes|
    ensures err == None <==> forall i :: 0 <= i < |probes| ==> behaviour(probes[i]).start == None
    ensures err == None ==> |invoked| == |probes|
    ensures err != None ==>
      var k := |invoked| - 1;
      0 <= k &&
      (forall i :: 0 <= i < k ==> behaviour(probes[i]).start == None) &&
      behaviour(probes[k]).start != None &&
      err == Some(Wrapped(WrapMessage(behaviour(probes[k]).name), behaviour(probes[k]).start.value))
  {
    invoked := [];
    for i := 0 to |probes|
      invariant |invoked| == i && InOrderFromFirst(invoked)
      invariant forall j :: 0 <= j < i ==> behaviour(probes[j]).start == None
    {
      var p := probes[i];
      invoked := invoked + [i];
      var e := behaviour(p).start;
      if e != None {
        return Some(Wrapped(WrapMessage(behaviour(p).name), e.value)), invoked;
      }
    }
    return None, invoked;
  }
}
