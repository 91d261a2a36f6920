/** The home page's hidden entrance to the administration page (pages/Home.tsx): two logo
    clicks less than 500 ms apart open it. `Date.now()` becomes the click time `now`. */
module Home {

  /** The stored value after a click, and whether the click opens the administration page. */
  datatype ClickResult = ClickResult(stored: int, toAdmin: bool)

  /** `handleLogoClick` as a transition: with nothing stored the time is remembered; with a
      time stored the click opens the page when it comes within 500 ms, and the store clears. */
  function Click(stored: int, now: int): (r: ClickResult)
    ensures stored == 0 ==> r.stored == now && !r.toAdmin
    ensures stored != 0 ==> r.stored == 0 && (r.toAdmin <==> now - stored < 500)
  {
    if stored == 0 then ClickResult(now, false)
    else ClickResult(0, now - stored < 500)
  }

  /** Whether each click of a series, starting from `stored`, opens the page. A click from the
      cleared state never opens it, so two clicks in a row never both open it. */
  function Clicks(stored: int, times: seq<int>): (r: seq<bool>)
    ensures |r| == |times|
    ensures stored == 0 && |times| > 0 ==> !r[0]
    ensures forall i :: 0 <= i < |r| - 1 && r[i] ==> !r[i + 1]
    decreases |times|
  {
    if times == [] then []
    else
      var c := Click(stored, times[0]);
      [c.toAdmin] + Clicks(c.stored, times[1..])
  }

  /** Clicks pair up: from a cleared state, and with time stamps after the epoch, the first
      click of each pair never opens the page and the second opens it exactly when it follows
      the first by less than 500 ms. */
  lemma {:induction false} ClicksPairUp(times: seq<int>)
    requires forall i :: 0 <= i < |times| ==> times[i] > 0
    ensures forall i :: 0 <= i < |times| && i % 2 == 0 ==> !Clicks(0, times)[i]
    ensures forall i :: 0 < i < |times| && i % 2 == 1 ==> (Clicks(0, times)[i] <==> times[i] - times[i - 1] < 500)
  {
    if |times| >= 2 {
      var rest := times[2..];
      ClicksPairUp(rest);
      assert Clicks(0, times) == [false, times[1] - times[0] < 500] + Clicks(0, rest);
      forall i | 2 <= i < |times| ensures Clicks(0, times)[i] == Clicks(0, rest)[i - 2] && times[i] == rest[i - 2] {
      }
    }
  }

  /** The page: `logoClicks` holds the time of an unpaired click, or 0. */
  class HomePage {
    var logoClicks: int

    constructor()
      ensures logoClicks == 0
    {
      logoClicks := 0;
    }

    method HandleLogoClick(now: int) returns (toAdmin: bool)
      modifies this
      ensures ClickResult(logoClicks, toAdmin) == Click(old(logoClicks), now)
    {
      toAdmin := false;
      if logoClicks == 0 {
        logoClicks := now;
      } else {
        if now - logoClicks < 500 {
          toAdmin := true;
        }
        logoClicks := 0;
      }
    }
  }
}
