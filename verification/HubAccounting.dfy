/** Bytes on their way to a device, counted on the device, the port and the
    connection at three different moments. */
module HubAccounting {
  import opened Prelude
  import opened HubModel
  import opened HubAttach
  import opened HubLifecycle

  function HandedBytes(h: seq<(ConnId, bytes)>): (n: nat) {
    if h == [] then 0 else HandedBytes(h[..|h| - 1]) + |h[|h| - 1].1|
  }

  lemma HandedAppend(h: seq<(ConnId, bytes)>, entry: (ConnId, bytes))
    ensures HandedBytes(h + [entry]) == HandedBytes(h) + |entry.1|
  {
    assert (h + [entry])[..|h|] == h;
  }

  /** What the device took of this connection's input and its port has not counted yet. */
  function BeforePort(k: Conn): (n: nat) { if k.reader.CountPort? then k.reader.n else 0 }

  /** What its port has counted and the connection itself has not. */
  function BetweenCounters(k: Conn): (n: nat) { if k.reader.CountConn? then k.reader.n else 0 }

  function PortWritten(q: Port): (n: int) { q.written }
  function PortHanded(q: Port): (n: int) { HandedBytes(q.handed) }
  function ConnWritten(k: Conn): (n: int) { k.written }
  function ConnCounted(k: Conn): (n: int) { k.written + BetweenCounters(k) }
  function ConnHanded(k: Conn): (n: int) { k.written + BetweenCounters(k) + BeforePort(k) }

  lemma ConnStepBalances(k: Conn, e: ConnEv)
    requires ConnCan(k, e)
    ensures ConnCounted(ConnDo(k, e)) == ConnCounted(k) && ConnHanded(ConnDo(k, e)) == ConnHanded(k)
  {
  }

  lemma PortStepBalances(cfg: Config, m: Mgr, p: PortId, q: Port, e: PortEv)
    requires PortCan(m, p, q, e)
    ensures var q' := PortDo(cfg, m, p, q, e).q;
            PortWritten(q') == PortWritten(q) && PortHanded(q') == PortHanded(q)
  {
    assert PortDo(cfg, m, p, q, e).q.handed == q.handed;
    if ByOthers(e) {
    } else if e.Online? || e.Offline? || e.RingWrite? || e.FanBegin? || e.FanEnd? {
    } else {
    }
  }

  lemma DeviceTookBalances(c: ConnId, k: Conn, p: PortId, q: Port, n: nat, err: bool)
    requires k.reader.InputDevice? && n <= |k.reader.data|
    ensures var r := DeviceWrote(c, k, p, q, n, err);
            && r.q.written == q.written && ConnCounted(r.k) == ConnCounted(k)
            && PortHanded(r.q) - PortHanded(q) == ConnHanded(r.k) - ConnHanded(k)
  {
    if n > 0 { HandedAppend(q.handed, (c, k.reader.data[..n])); }
  }

  lemma FanPushKeepsCounters(k: Conn, q: Port)
    requires q.worker.FanTry?
    ensures var r := FanPushed(k, q);
            r.k.written == k.written && r.k.reader == k.reader && r.q.written == q.written && r.q.handed == q.handed
  {
  }

  /** Everything but the three counting moments leaves all counters alone. */
  lemma OtherStepsBalance(cfg: Config, m: Mgr, c: ConnId, k: Conn, p: PortId, q: Port, e: PairEv)
    requires PairCan(m, c, k, p, q, e) && !e.DeviceTook? && !e.CountOnPort?
    ensures var r := PairDo(cfg, m, c, k, p, q, e);
            && r.k.written == k.written && r.q.written == q.written && r.q.handed == q.handed
            && (r.k.reader == k.reader
                || !(r.k.reader.CountPort? || r.k.reader.CountConn? || k.reader.CountPort? || k.reader.CountConn?))
  {
    if e.FanPush? { FanPushKeepsCounters(k, q); }
  }

  lemma PairStepBalances(cfg: Config, m: Mgr, c: ConnId, k: Conn, p: PortId, q: Port, e: PairEv)
    requires PairCan(m, c, k, p, q, e)
    ensures var r := PairDo(cfg, m, c, k, p, q, e);
            && PortWritten(r.q) - PortWritten(q) == ConnCounted(r.k) - ConnCounted(k)
            && PortHanded(r.q) - PortHanded(q) == ConnHanded(r.k) - ConnHanded(k)
  {
    if e.DeviceTook? {
      DeviceTookBalances(c, k, p, q, e.n, e.err);
    } else if !e.CountOnPort? {
      OtherStepsBalance(cfg, m, c, k, p, q, e);
    }
  }
}
