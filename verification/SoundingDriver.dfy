/** The beamforming records, updated in place by the two handlers that call each other. */
module SoundingDriver {

  import opened SoundingScheduler

  class BeamformingInfo {
    const bfee: array<Bfee>
    var su: seq<nat>
    var mu: seq<nat>
    var muCnt: nat
    var cur: nat
    var state: State
    var minPeriod: nat
    var running: int
    var waitCnt: nat
    /** The frames sent and entries deleted in this period. */
    ghost var done: seq<Action>

    ghost predicate Valid()
      reads this, bfee
    {
      bfee.Length == ENTRIES && Shape(View())
    }

    ghost function View(): Info
      reads this, bfee
    {
      Info(bfee[..], su, mu, muCnt, cur, state, minPeriod, running, waitCnt, done)
    }

    constructor (entries: seq<Bfee>, minPeriod: nat)
      requires |entries| == ENTRIES && minPeriod > 0
      ensures Valid() && fresh(bfee)
      ensures View() == Info(entries, [], [], 0, 255, Idle, minPeriod, 0, 0, [])
    {
      bfee := new Bfee[ENTRIES](i requires 0 <= i < ENTRIES => entries[i]);
      su, mu, muCnt, cur, state := [], [], 0, 255, Idle;
      this.minPeriod := minPeriod;
      running, waitCnt, done := 0, 0, [];
      new;
      assert bfee[..] == entries;
    }

    /** `_sounding_reset_vars`. */
    method ResetVars()
      requires bfee.Length == ENTRIES
      modifies this`su, this`mu, this`cur, this`muCnt, bfee
      ensures su == mu == [] && cur == 255 && muCnt == 0
      ensures bfee[..] == Reset(old(bfee[..]))
    {
      su, mu, cur, muCnt := [], [], 255, 0;
      for i := 0 to ENTRIES
        invariant su == mu == [] && cur == 255 && muCnt == 0
        invariant forall j :: 0 <= j < i ==> bfee[j] == Reset(old(bfee[..]))[j]
        invariant forall j :: i <= j < ENTRIES ==> bfee[j] == old(bfee[j])
      {
        if bfee[i].used && bfee[i].sounding {
          bfee[i] := bfee[i].(sounding := false, candidate := false);
        }
      }
    }

    /** One round of the list loop. */
    method ListEntry(i: nat, notReady: nat) returns (n: nat)
      requires bfee.Length == ENTRIES && i < ENTRIES && minPeriod > 0
      modifies this`su, this`mu, bfee
      ensures Lists(bfee[..], su, mu, n) == ListOne(Lists(old(bfee[..]), old(su), old(mu), notReady), i, minPeriod)
    {
      n := notReady;
      ghost var was := bfee[..];
      var e := bfee[i];
      if !e.used {
        return;
      }
      if !e.added {
        n := n + 1;
        return;
      }
      if e.soundCnt > 0 {
        e := e.(soundCnt := e.soundCnt - 1);
        bfee[i] := e;
      }
      assert bfee[..] == was[i := e];
      if e.soundCnt > 0 {
        return;
      }
      ListDueEntry(i, n);
    }

    /** The part of a round for a peer whose count has run down. */
    method ListDueEntry(i: nat, ghost notReady: nat)
      requires bfee.Length == ENTRIES && i < ENTRIES && minPeriod > 0
      modifies this`su, this`mu, bfee
      ensures Lists(bfee[..], su, mu, notReady)
           == ListDue(Lists(old(bfee[..]), old(su), old(mu), notReady), i, minPeriod)
    {
      var e := bfee[i];
      if e.cap.mu {
        if |mu| >= MAX_MU {
          return;
        }
        if e.apply {
          bfee[i] := e.(candidate := true, soundCnt := InitSoundCnt(e.period, minPeriod));
          mu := mu + [i];
        }
      } else if e.cap.su || e.cap.ht {
        if |su| >= MAX_SU {
          return;
        }
        if e.deleting {
          su := su + [i];
        } else if e.apply && !e.suspended {
          bfee[i] := e.(candidate := true, soundCnt := InitSoundCnt(e.period, minPeriod));
          su := su + [i];
        }
      }
    }

    /** `_sounding_get_list`: 0, or -1 when no peer is due, or -2 when some are not ready. */
    method GetList() returns (ret: int)
      requires bfee.Length == ENTRIES && minPeriod > 0 && su == mu == []
      modifies this`su, this`mu, this`muCnt, bfee
      ensures var l := ListAll(old(bfee[..]), ENTRIES, minPeriod);
              && bfee[..] == l.bfee && su == l.su && mu == l.mu && muCnt == |mu|
              && ret == (if l.su != [] || l.mu != [] then 0 else if l.notReady == 0 then -1 else -2)
    {
      var notReady := 0;
      for i := 0 to ENTRIES
        invariant Lists(bfee[..], su, mu, notReady) == ListAll(old(bfee[..]), i, minPeriod)
      {
        notReady := ListEntry(i, notReady);
      }
      muCnt := |mu|;
      ret := 0;
      if |su| + |mu| == 0 {
        ret := if notReady > 0 then -2 else -1;
      }
    }

    /** The reset and the lists of a new period. */
    method NewLists() returns (ret: int)
      requires Valid() && state == Init
      modifies this`su, this`mu, this`muCnt, this`cur, this`done, bfee
      ensures var l := ListAll(Reset(old(bfee[..])), ENTRIES, minPeriod);
              && bfee[..] == l.bfee && su == l.su && mu == l.mu && muCnt == |l.mu| && cur == 255 && done == []
              && ret == (if l.su != [] || l.mu != [] then 0 else if l.notReady == 0 then -1 else -2)
      ensures Valid()
    {
      ListsAreDistinct(Reset(bfee[..]), ENTRIES, minPeriod);
      ResetVars();
      done := [];
      ret := GetList();
    }

    /** The first part of `_sounding_handler`, in the initial state. */
    method BeginPeriod(survey: bool) returns (ok: bool)
      requires Valid() && state == Init
      modifies this, bfee
      ensures Valid() && (ok, View()) == Begin(old(View()), survey)
    {
      var ret := NewLists();
      if ret == -1 {
        waitCnt := 0;
        state := Idle;
        running := running - 1;
        return false;
      }
      if ret == -2 {
        if waitCnt < 5 {
          waitCnt := waitCnt + 1;
        } else {
          waitCnt := 0;
          state := Idle;
        }
        running := running - 1;
        return false;
      }
      waitCnt := 0;
      if survey {
        running := running - 1;
        return false;
      }
      ok := true;
    }

    /** The search for the next single-user peer. */
    method FindUnsounded() returns (k: nat)
      requires Valid()
      ensures k == FirstUnsounded(bfee[..], su)
    {
      k := 0;
      while k < |su| && bfee[su[k]].sounding
        invariant k <= |su|
        invariant FirstUnsounded(bfee[..], su) == k + FirstUnsounded(bfee[..], su[k..])
      {
        assert su[k..][1..] == su[k + 1..];
        k := k + 1;
      }
    }

    /** `_sounding_handler` from the choice of the next peer on. */
    method NextPeer()
      requires Valid()
      modifies this, bfee
      ensures Valid() && View() == Next(old(View()))
      decreases Left(bfee[..], su), 0
    {
      var k := FindUnsounded();
      if k < |su| {
        TurnTo(k);
        if bfee[cur].deleting {
          done := done + [Deleted(cur)];
          SoundingDown(false);
        } else {
          done := done + [Su(cur)];
        }
        return;
      }
      if muCnt > 0 {
        state := MuStart;
        MarkAll();
        done := done + [Mu(mu[..muCnt])];
        muCnt := 0;
        return;
      }
      running := running - 1;
      state := Init;
    }

    /** The next single-user peer has its turn. */
    method TurnTo(k: nat)
      requires Valid() && k < |su| && k == FirstUnsounded(bfee[..], su)
      modifies this`cur, this`state, bfee
      ensures cur == su[k] < bfee.Length && state == SuStart
      ensures bfee[..] == old(bfee[..])[cur := old(bfee[su[k]]).(sounding := true, timeout := false)]
      ensures Valid() && Left(bfee[..], su) < Left(old(bfee[..]), su)
    {
      cur := su[k];
      state := SuStart;
      LeftDrops(bfee[..], su, k, bfee[cur].(sounding := true, timeout := false));
      bfee[cur] := bfee[cur].(sounding := true, timeout := false);
    }

    /** Marks every candidate of the multi-user sounding. */
    method MarkAll()
      requires Valid()
      modifies bfee
      ensures bfee[..] == MarkMu(old(bfee[..]), mu[..muCnt])
    {
      for j := 0 to muCnt
        invariant bfee[..] == MarkMu(old(bfee[..]), mu[..j])
      {
        MarkOneMore(old(bfee[..]), mu, j);
        bfee[mu[j]] := bfee[mu[j]].(sounding := true);
      }
    }

    /** `_beamforming_sounding_down`. */
    method SoundingDown(status: bool)
      requires Valid()
      modifies this, bfee
      ensures Valid() && View() == Down(old(View()), status)
      decreases Left(bfee[..], su), 1
    {
      if state == MuStart {
        state := MuDown;
      } else if state == SuStart {
        state := SuDown;
        if bfee[cur].timeout {
          bfee[cur] := bfee[cur].(timeout := false);
          return;
        }
        LeftSame(bfee[..], su, cur, AfterDown(bfee[cur], status));
        if status {
          bfee[cur] := bfee[cur].(failCnt := 0);
        } else if bfee[cur].deleting {
          bfee[cur] := bfee[cur].(deleting := false);
        } else {
          bfee[cur] := bfee[cur].(failCnt := (bfee[cur].failCnt + 1) % 32);
        }
      } else {
        return;
      }
      NextPeer();
    }

    /** `_sounding_handler`. */
    method SoundingHandler(survey: bool)
      requires Valid()
      modifies this, bfee
      ensures Valid() && View() == Handler(old(View()), survey)
    {
      if state != Init && state != SuDown && state != MuDown && state != TimedOut {
        return;
      }
      if state == Init {
        var ok := BeginPeriod(survey);
        if !ok {
          return;
        }
      }
      NextPeer();
    }

    /** `_sounding_timeout_timer_handler`. */
    method SoundingTimeout()
      requires Valid()
      modifies this`state, bfee
      ensures Valid() && View() == Timeout(old(View()))
    {
      if state == SuStart {
        state := TimedOut;
        bfee[cur] := bfee[cur].(timeout := true);
      } else if state == MuStart {
        state := TimedOut;
      }
    }

    /** `_sounding_timer_handler`: whether to issue a start command. */
    method PeriodTimer() returns (start: bool)
      requires Valid()
      modifies this`state, this`running
      ensures Valid() && View() == Tick(old(View()))
      ensures start <==> old(state) != Idle && old(running) == 0
    {
      start := false;
      if state == Idle {
        return;
      }
      if running == 0 {
        if state != Init {
          state := Init;
        }
        running := running + 1;
        start := true;
      }
    }

    /** The judgement loop of the traffic evaluation: whether any peer changed. */
    method JudgeAll(worth: set<nat>) returns (changed: bool)
      requires bfee.Length == ENTRIES
      modifies bfee
      ensures forall j :: 0 <= j < ENTRIES ==> bfee[j] == Judged(old(bfee[j]), j in worth)
      ensures changed <==> exists j :: 0 <= j < ENTRIES && bfee[j] != old(bfee[j])
    {
      changed := false;
      for i := 0 to ENTRIES
        invariant forall j :: 0 <= j < i ==> bfee[j] == Judged(old(bfee[j]), j in worth)
        invariant forall j :: i <= j < ENTRIES ==> bfee[j] == old(bfee[j])
        invariant changed <==> exists j :: 0 <= j < i && bfee[j] != old(bfee[j])
      {
        var e := bfee[i];
        if e.used {
          if i in worth {
            if !e.apply {
              bfee[i] := e.(apply := true, soundCnt := 0);
              changed := true;
            }
          } else if e.apply {
            bfee[i] := e.(apply := false, deleting := true, soundCnt := 0);
            changed := true;
          }
        }
      }
    }

    /** The traffic evaluation; a change wakes an idle scheduler. */
    method JudgeTraffic(worth: set<nat>)
      requires Valid()
      modifies this`state, bfee
      ensures Valid() && View() == Traffic(old(View()), worth)
    {
      ghost var was := bfee[..];
      var changed := JudgeAll(worth);
      assert bfee[..] == seq(ENTRIES, i requires 0 <= i < ENTRIES => Judged(was[i], i in worth));
      assert changed <==> bfee[..] != was;
      if changed && state == Idle {
        state := Init;
      }
    }
  }

  lemma MarkOneMore(was: seq<Bfee>, mu: seq<nat>, j: nat)
    requires j < |mu| && forall k :: 0 <= k < |mu| ==> mu[k] < |was|
    ensures var marked := MarkMu(was, mu[..j]);
            MarkMu(was, mu[..j + 1]) == marked[mu[j] := marked[mu[j]].(sounding := true)]
  {
    assert mu[..j + 1] == mu[..j] + [mu[j]];
  }
}
