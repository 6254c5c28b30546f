/** internal/wgengine/filtertun.go: the batch filter in front of the tun device. */
module FilterTun {
  import opened Prelude
  import opened Numerals
  import opened Filter

  type Packet = seq<byte>

  predicate Passes(f: Option<RuleSet>, offset: nat, buf: Packet) {
    offset <= |buf| && AllowsPacket(f, buf[offset..])
  }

  /** The packets of a batch that pass, in their original order. */
  function Kept(f: Option<RuleSet>, offset: nat, bufs: seq<Packet>): seq<Packet> {
    if bufs == [] then []
    else
      var last := bufs[|bufs| - 1];
      Kept(f, offset, bufs[..|bufs| - 1]) + if Passes(f, offset, last) then [last] else []
  }

  /** The places, in ascending order, are exactly those of the passing packets. */
  ghost predicate ArePassing(f: Option<RuleSet>, offset: nat, bufs: seq<Packet>, places: seq<nat>) {
    && (forall i, j :: 0 <= i < j < |places| ==> places[i] < places[j])
    && (forall n :: n in places <==> 0 <= n < |bufs| && Passes(f, offset, bufs[n]))
  }

  /** What is kept are the packets at those places, in their order. */
  lemma {:induction false} KeptInOrder(f: Option<RuleSet>, offset: nat, bufs: seq<Packet>) returns (places: seq<nat>)
    ensures ArePassing(f, offset, bufs, places) && |places| == |Kept(f, offset, bufs)|
    ensures forall i :: 0 <= i < |places| ==> places[i] < |bufs| && Kept(f, offset, bufs)[i] == bufs[places[i]]
  {
    places := [];
    if bufs != [] {
      var m := |bufs| - 1;
      places := KeptInOrder(f, offset, bufs[..m]);
      PlacesNext(f, offset, bufs, places);
      if Passes(f, offset, bufs[m]) { places := places + [m]; }
    }
  }

  /** Every passing packet is kept as often as it comes, and no other is. */
  lemma {:induction false} KeptIsFilter(f: Option<RuleSet>, offset: nat, bufs: seq<Packet>)
    ensures |Kept(f, offset, bufs)| <= |bufs|
    ensures forall b :: multiset(Kept(f, offset, bufs))[b] == if Passes(f, offset, b) then multiset(bufs)[b] else 0
  {
    if bufs != [] {
      var m := |bufs| - 1;
      assert bufs == bufs[..m] + [bufs[m]];
      KeptIsFilter(f, offset, bufs[..m]);
    }
  }

  lemma PlacesNext(f: Option<RuleSet>, offset: nat, bufs: seq<Packet>, places: seq<nat>)
    requires bufs != [] && ArePassing(f, offset, bufs[..|bufs| - 1], places)
    ensures var m := |bufs| - 1;
            ArePassing(f, offset, bufs, if Passes(f, offset, bufs[m]) then places + [m] else places)
  {
    var m := |bufs| - 1;
    forall i | 0 <= i < |places| ensures places[i] < m { assert places[i] in places; }
    forall n | 0 <= n < m ensures n in places <==> Passes(f, offset, bufs[n]) { assert bufs[..m][n] == bufs[n]; }
  }

  lemma {:induction false} KeptConcat(f: Option<RuleSet>, offset: nat, a: seq<Packet>, b: seq<Packet>)
    ensures Kept(f, offset, a + b) == Kept(f, offset, a) + Kept(f, offset, b)
  {
    if b == [] {
      assert a + b == a;
    } else {
      var m := |b| - 1;
      assert (a + b)[..|a + b| - 1] == a + b[..m];
      KeptConcat(f, offset, a, b[..m]);
    }
  }

  /** The loop: allowed packets move to the front, in order. */
  method Compact(f: Option<RuleSet>, bufs: array<Packet>, offset: nat) returns (k: nat)
    requires forall i :: 0 <= i < bufs.Length ==> offset <= |bufs[i]|
    modifies bufs
    ensures k <= bufs.Length && bufs[..k] == Kept(f, offset, old(bufs[..])) && bufs[k..] == old(bufs[..])[k..]
  {
    ghost var orig := bufs[..];
    k := 0;
    for i := 0 to bufs.Length
      invariant 0 <= k <= i
      invariant bufs[..k] == Kept(f, offset, orig[..i])
      invariant bufs[k..] == orig[k..]
    {
      var buf := bufs[i];
      assert buf == bufs[k..][i - k] == orig[i];
      assert orig[..i + 1][..i] == orig[..i];
      if AllowsPacket(f, buf[offset..]) {
        ghost var before := bufs[..];
        bufs[k] := buf;
        assert bufs[..k + 1] == before[..k] + [buf];
        assert bufs[k + 1..] == before[k + 1..] == before[k..][1..];
        k := k + 1;
      }
    }
    assert orig[..bufs.Length] == orig;
  }

  /** What a device reports: how many packets it wrote, and its error if it has one. */
  datatype Report = Report(wrote: nat, error: Option<string>)

  /** Filter a batch in place and hand the rest to the device.  `sent` is what the device
      was given, if it was called; dropping is no error, and the device's error is passed on. */
  method Write(f: Option<RuleSet>, bufs: array<Packet>, offset: nat, device: seq<Packet> -> Report)
    returns (n: nat, err: Option<string>, sent: Option<seq<Packet>>)
    requires forall i :: 0 <= i < bufs.Length ==> offset <= |bufs[i]|
    modifies bufs
    ensures f.None? ==> bufs[..] == old(bufs[..]) && sent == Some(old(bufs[..])) && n == device(old(bufs[..])).wrote
    ensures err == if sent.Some? then device(sent.value).error else None
    ensures f.Some? ==>
              var kept := Kept(f, offset, old(bufs[..]));
              && |kept| <= bufs.Length
              && bufs[..] == kept + old(bufs[..])[|kept|..]
              && sent == (if kept == [] then None else Some(kept))
              && n == (if kept == [] then bufs.Length else device(kept).wrote + bufs.Length - |kept|)
    // a device that writes everything it gets makes the whole batch count as written
    ensures (sent.Some? ==> device(sent.value).wrote == |sent.value|) ==> n == bufs.Length
  {
    if f.None? {
      var all := device(bufs[..]);
      n, err, sent := all.wrote, all.error, Some(bufs[..]);
      return;
    }
    ghost var orig := bufs[..];
    var k := Compact(f, bufs, offset);
    var dropped := bufs.Length - k;
    assert bufs[..] == bufs[..k] + bufs[k..];
    if k == 0 {
      n, err, sent := bufs.Length, None, None;
      return;
    }
    sent := Some(bufs[..k]);
    var report := device(bufs[..k]);
    n, err := report.wrote + dropped, report.error;
  }
}
