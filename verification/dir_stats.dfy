/** What a direction's workers have counted, added up for a snapshot (tester/dataplane/stats.go). */
module DirStats {
  import opened PacketBatch
  import opened PacketSender

  function PacketsIn(ws: seq<Counts>): nat {
    if ws == [] then 0 else PacketsIn(ws[..|ws| - 1]) + ws[|ws| - 1].packets
  }

  function BytesIn(ws: seq<Counts>): nat {
    if ws == [] then 0 else BytesIn(ws[..|ws| - 1]) + ws[|ws| - 1].bytes
  }

  /** gNB g's bytes over all workers. */
  function GnbBytes(ws: seq<Counts>, g: nat): nat
    requires forall k :: 0 <= k < |ws| ==> g < |ws[k].gnb|
  {
    if ws == [] then 0 else GnbBytes(ws[..|ws| - 1], g) + ws[|ws| - 1].gnb[g]
  }

  method Totals(ws: seq<Counts>) returns (packets: nat, bytes: nat)
    ensures packets == PacketsIn(ws) && bytes == BytesIn(ws)
  {
    packets, bytes := 0, 0;
    for i := 0 to |ws|
      invariant packets == PacketsIn(ws[..i]) && bytes == BytesIn(ws[..i])
    {
      assert ws[..i + 1][..i] == ws[..i];
      packets := packets + ws[i].packets;
      bytes := bytes + ws[i].bytes;
    }
    assert ws[..|ws|] == ws;
  }

  /** addGnbBytes on the traffic of all gNBs. */
  method AddGnbBytes(traffic: array<nat>, ws: seq<Counts>)
    requires forall k :: 0 <= k < |ws| ==> |ws[k].gnb| == traffic.Length
    modifies traffic
    ensures forall g :: 0 <= g < traffic.Length ==> traffic[g] == old(traffic[g]) + GnbBytes(ws, g)
  {
    for i := 0 to |ws|
      invariant forall g :: 0 <= g < traffic.Length ==> traffic[g] == old(traffic[g]) + GnbBytes(ws[..i], g)
    {
      assert ws[..i + 1][..i] == ws[..i];
      AddWorker(traffic, ws[i]);
    }
    assert ws[..|ws|] == ws;
  }

  method AddWorker(traffic: array<nat>, w: Counts)
    requires |w.gnb| == traffic.Length
    modifies traffic
    ensures forall g :: 0 <= g < traffic.Length ==> traffic[g] == old(traffic[g]) + w.gnb[g]
  {
    for g := 0 to traffic.Length
      invariant forall h :: 0 <= h < traffic.Length ==>
                  traffic[h] == old(traffic[h]) + (if h < g then w.gnb[h] else 0)
    {
      traffic[g] := traffic[g] + w.gnb[g];
    }
  }

  /** A snapshot's traffic per gNB adds up to the direction's bytes, however many workers share them. */
  lemma {:induction false} TrafficAddsUp(ws: seq<Counts>, gnbs: nat, traffic: seq<nat>)
    requires forall k :: 0 <= k < |ws| ==> |ws[k].gnb| == gnbs && Even(ws[k])
    requires |traffic| == gnbs && forall g :: 0 <= g < gnbs ==> traffic[g] == GnbBytes(ws, g)
    ensures Sum(traffic) == BytesIn(ws)
  {
    if ws == [] {
      SumNone(traffic);
    } else {
      var n := |ws| - 1;
      var before := seq(gnbs, g requires 0 <= g < gnbs => GnbBytes(ws[..n], g));
      TrafficAddsUp(ws[..n], gnbs, before);
      SumPlus(before, ws[n].gnb, traffic);
    }
  }
}
