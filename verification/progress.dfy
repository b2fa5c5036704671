/** The progress callback handed to the transport (`PluggableProgress`) and
    the lifecycle of the bar it feeds. Only the guard against an unknown
    total is modelled: an update carries the byte counts it was computed
    from, not the percentage. */
module Progress {

  /** One call of the transport's progress hook: bytes expected and bytes
      received for the download, then the same for the upload. */
  datatype Tick = Tick(toDownload: nat, downloaded: nat, toUpload: nat, uploaded: nat)

  /** An update sent to the bar: `downloaded` out of `total` bytes. */
  datatype Update = Update(downloaded: nat, total: nat)

  datatype Bar = Bar(running: bool, updates: seq<Update>)

  function Start(b: Bar): (r: Bar) {
    b.(running := true)
  }

  function Finish(b: Bar): (r: Bar) {
    b.(running := false)
  }

  /** No update the bar was ever sent was computed by dividing by zero. */
  ghost predicate NoZeroTotal(updates: seq<Update>) {
    forall i :: 0 <= i < |updates| ==> updates[i].total != 0
  }

  /** `PluggableProgress.__call__`: a tick with an unknown (zero) total
      leaves the bar as it is; any other tick sends one update. */
  function Notify(b: Bar, t: Tick): (r: Bar)
    ensures t.toDownload == 0 ==> r == b
    ensures t.toDownload != 0 ==> r.updates == b.updates + [Update(t.downloaded, t.toDownload)]
    ensures r.running == b.running
  {
    if t.toDownload != 0 then b.(updates := b.updates + [Update(t.downloaded, t.toDownload)])
    else b
  }

  /** Reference definition: the updates a run of ticks should show, one per
      tick whose total is known, in order. */
  function Shown(ticks: seq<Tick>): (us: seq<Update>)
    ensures |us| <= |ticks|
    ensures NoZeroTotal(us)
  {
    if |ticks| == 0 then []
    else
      var rest := Shown(ticks[1..]);
      if ticks[0].toDownload != 0 then [Update(ticks[0].downloaded, ticks[0].toDownload)] + rest
      else rest
  }

  /** The bar after the transport made the given progress calls in order. */
  function NotifyAll(b: Bar, ticks: seq<Tick>): (r: Bar)
    decreases |ticks|
  {
    if |ticks| == 0 then b else NotifyAll(Notify(b, ticks[0]), ticks[1..])
  }

  /** Feeding ticks one by one through the guard appends exactly the updates
      of the known-total ticks, and never an update with a zero total. */
  lemma {:induction false} NotifyAllShows(b: Bar, ticks: seq<Tick>)
    ensures NotifyAll(b, ticks) == b.(updates := b.updates + Shown(ticks))
    ensures NoZeroTotal(b.updates) ==> NoZeroTotal(NotifyAll(b, ticks).updates)
    decreases |ticks|
  {
    if |ticks| == 0 {
      assert b.updates + [] == b.updates;
    } else {
      var b' := Notify(b, ticks[0]);
      NotifyAllShows(b', ticks[1..]);
      if ticks[0].toDownload != 0 {
        assert b'.updates + Shown(ticks[1..])
            == b.updates + ([Update(ticks[0].downloaded, ticks[0].toDownload)] + Shown(ticks[1..]));
      }
      var all := b.updates + Shown(ticks);
      if NoZeroTotal(b.updates) {
        assert forall i :: 0 <= i < |all| ==> all[i].total != 0 by {
          forall i | 0 <= i < |all|
            ensures all[i].total != 0
          {
            if i >= |b.updates| {
              assert all[i] == Shown(ticks)[i - |b.updates|];
            }
          }
        }
      }
    }
  }

  /** A transfer whose size the server never reported sends the bar no
      update at all. */
  lemma UnknownTotalShowsNothing(b: Bar, ticks: seq<Tick>)
    requires forall i :: 0 <= i < |ticks| ==> ticks[i].toDownload == 0
    ensures NotifyAll(b, ticks) == b
  {
    NotifyAllShows(b, ticks);
    NoneShown(ticks);
    assert b.updates + [] == b.updates;
  }

  lemma {:induction false} NoneShown(ticks: seq<Tick>)
    requires forall i :: 0 <= i < |ticks| ==> ticks[i].toDownload == 0
    ensures Shown(ticks) == []
    decreases |ticks|
  {
    if |ticks| > 0 {
      NoneShown(ticks[1..]);
    }
  }
}
