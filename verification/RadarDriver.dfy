/** Radar detection as the driver runs it, on fields of `rf_ctl_t` and the channel array. */
module RadarDriver {

  import opened Basics
  import opened DfsChannels
  import opened RadarDetection

  class RfCtl {
    const chs: array<Channel>
    const etsi: bool
    var now: int
    var enabled: bool
    var detected: bool
    var cur: Option<Tuning>
    var cacStart: int
    var cacEnd: int

    ghost function View(): State
      reads this, chs
    {
      State(chs[..], now, etsi, enabled, detected, cur, cacStart, cacEnd)
    }

    constructor (chs: array<Channel>, now: int, etsi: bool)
      ensures View() == Start(chs[..], now, etsi).m && this.chs == chs
    {
      this.chs, this.now, this.etsi := chs, now, etsi;
      enabled, detected, cur, cacStart, cacEnd := false, false, None, STOPPED, STOPPED;
    }

    /** `rtw_chset_get_bch_non_ocp_ms`. */
    method GetNonOcpMs(t: Tuning) returns (ms: nat)
      ensures ms == NonOcpMs(chs[..], t, now)
    {
      ms := 0;
      for i := 0 to chs.Length
        invariant ms == NonOcpMs(chs[..i], t, now)
      {
        assert chs[..i + 1][..i] == chs[..i];
        if Touches(chs[i], t) && NonOcp(chs[i], now) {
          if chs[i].nonOcpEnd - now > ms {
            ms := chs[i].nonOcpEnd - now;
          }
        }
      }
      assert chs[..chs.Length] == chs[..];
    }

    /** `rtw_chset_update_non_ocp_ms_by_freq` with the default time. */
    method UpdateNonOcp(r: Tuning)
      modifies chs
      ensures chs[..] == Mark(old(chs[..]), r, now)
    {
      for i := 0 to chs.Length
        invariant forall j :: 0 <= j < i ==> chs[j] == MarkOne(old(chs[j]), r, now)
        invariant forall j :: i <= j < chs.Length ==> chs[j] == old(chs[j])
      {
        if Touches(chs[i], r) {
          var end := now + NON_OCP_TIME_MS;
          if end == STOPPED {
            end := end + 1;
          }
          chs[i] := chs[i].(nonOcpEnd := end);
        }
      }
    }

    /** `rtw_get_ch_waiting_ms` for a 5 GHz tuning. */
    method GetChWaitingMs(t: Tuning) returns (nonOcpMs: nat, cacMs: int)
      ensures nonOcpMs == NonOcpMs(chs[..], t, now) && cacMs == CacMs(View(), t)
    {
      nonOcpMs := GetNonOcpMs(t);
      var inRange := enabled && cur.Some? && Within(t, cur.value);
      var isDfs := ScanDfsRange(chs, Hi(t), Lo(t));
      if !isDfs {
        cacMs := 0;
      } else if inRange && nonOcpMs == 0 {
        if cacEnd != STOPPED && cacEnd > now {
          cacMs := cacEnd - now;
        } else {
          cacMs := 0;
        }
      } else if etsi && Hi(t) > 5600 && Lo(t) < 5650 {
        cacMs := CAC_TIME_CE_MS;
      } else {
        cacMs := CAC_TIME_MS;
      }
    }

    /** `rtw_is_cac_reset_needed`. */
    method IsCacResetNeeded(t: Tuning) returns (needed: bool)
      ensures needed <==> ResetNeeded(chs[..], detected, cur, t)
    {
      if detected || cur.None? {
        return true;
      }
      var c := cur.value;
      if Within(t, c) {
        return false;
      }
      if !Overlap(t, c) {
        return true;
      }
      var above := ScanDfsRange(chs, Hi(t), Hi(c));
      var below := ScanDfsRange(chs, Lo(c), Lo(t));
      if Within(c, t) {
        needed := (Hi(t) != Hi(c) && above) || (Lo(t) != Lo(c) && below);
      } else {
        needed := (Lo(t) < Lo(c) && below) || (Hi(t) > Hi(c) && above);
      }
    }

    method DoResetCac(t: Tuning)
      modifies this
      ensures View() == ResetCac(old(View()), t)
    {
      var nonOcpMs, cacMs := GetChWaitingMs(t);
      var ready := 0;
      if nonOcpMs < RD_CONFIG_INT_MS {
        ready := RD_CONFIG_INT_MS - nonOcpMs;
      }
      cacStart := now + nonOcpMs;
      cacEnd := cacStart + (ready + cacMs);
      if cacStart == STOPPED {
        cacStart := cacStart + 1;
        cacEnd := cacEnd + 1;
      }
      if cacEnd == STOPPED {
        cacEnd := cacEnd + 1;
      }
    }

    /** `rtw_dfs_rd_enable`. */
    method DoEnable(t: Tuning, bypass: bool)
      modifies this
      ensures View() == Enable(old(View()), t, bypass)
    {
      if bypass {
        cacStart, cacEnd := STOPPED, STOPPED;
      } else {
        var needed := IsCacResetNeeded(t);
        if needed {
          DoResetCac(t);
        }
      }
      cur := Some(t);
      detected := false;
      enabled := true;
    }

    /** `rtw_dfs_rd_disable`. */
    method DoDisable(byOthers: Option<Tuning>)
      modifies this
      ensures View() == Disable(old(View()), byOthers)
    {
      if enabled {
        enabled, detected := false, false;
        cacStart, cacEnd := STOPPED, STOPPED;
      }
      cur := byOthers;
    }

    /** `rtw_dfs_rd_hdl`. */
    method DoPoll(radar: Option<Tuning>, d: Decision)
      modifies this, chs
      ensures View() == Poll(old(View()), radar, d)
    {
      if !enabled {
        return;
      }
      var waiting := cacEnd != STOPPED && cacEnd > now;
      if !(waiting && !(now > cacStart)) && radar.Some? {
        detected := true;
        UpdateNonOcp(radar.value);
        match d {
          case ToEnable(t, bypass) => DoEnable(t, bypass);
          case ToDisable(byOthers) => DoDisable(byOthers);
        }
        return;
      }
      if cacEnd != STOPPED && !waiting {
        cacStart, cacEnd := STOPPED, STOPPED;
      }
    }
  }
}
