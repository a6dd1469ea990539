/** Who answers for the boxes of an unreachable SprintBOX attempt that was followed up: the retry carries them on, and
    it alone. */
module SprintHeirs {
  import opened Base
  import opened Tables
  import opened SprintChain
  import opened SprintPrograms
  import opened SprintConservation
  import opened SprintPublishes
  import opened SprintRuns
  import opened SprintSteps

  /* ---------- a retry carries the boxes on ---------- */

  predicate Has(c: Chain, id: nat, n: string) {
    (id in c.rows && n in c.rows[id].ctx.retained) || n in c.past.gone
  }

  /** Every box of the one attempt, its own included, is in the set of the other, unless it is gone. */
  ghost predicate PassedOn(c: Chain, a: nat, b: nat) {
    && a in c.rows && b in c.rows && a !in c.creators && c.rows[a].newIpId != "" && Has(c, b, c.rows[a].newIpId)
    && forall n | n in c.rows[a].ctx.retained :: Has(c, b, n)
  }

  ghost predicate Passed(c: Chain) {
    forall b | b in c.past.follows :: PassedOn(c, c.past.follows[b], b)
  }

  /** A bought box is the box of its operation for good. */
  lemma BoxStays(c: Chain, c': Chain, id: nat)
    requires Struct(c) && Mild(c, c') && id in c.rows && c.rows[id].newIpId != ""
    ensures c'.rows[id].newIpId == c.rows[id].newIpId
  {
    assert Own(c, id, c.rows[id].newIpId) && MildRow(c, id, c.rows[id], c'.rows[id]);
  }

  lemma MildPassed(c: Chain, c': Chain)
    requires Struct(c) && Passed(c) && Mild(c, c')
    ensures Passed(c')
  {
    forall b | b in c'.past.follows ensures PassedOn(c', c'.past.follows[b], b) {
      var a := c.past.follows[b];
      assert PassedOn(c, a, b) && MildRow(c, a, c.rows[a], c'.rows[a]) && MildRow(c, b, c.rows[b], c'.rows[b]);
      BoxStays(c, c', a);
      assert forall n :: Has(c', b, n) == Has(c, b, n);
      assert a in c'.creators ==> MildCreator(c, a, c'.creators[a]);
    }
  }

  lemma OpenedPassed(c: Chain, c': Chain, ssh: Option<nat>)
    requires Sound(c) && Passed(c) && Opened(c, c', ssh)
    ensures Passed(c')
  {
    if ssh.Some? {
      UndecidedHasNoCreator(c, ssh.value);
      FollowedPassesOn(c, c', ssh);
    }
    forall b | b in c'.past.follows ensures PassedOn(c', c'.past.follows[b], b) {
      if b in c.past.follows && b != c.nextId {
        OpenedKeepsPair(c, c', ssh, c.past.follows[b], b);
      }
    }
    hide Sound, PassedOn;
  }

  lemma OpenedKeepsPair(c: Chain, c': Chain, ssh: Option<nat>, a: nat, b: nat)
    requires Opened(c, c', ssh) && PassedOn(c, a, b)
    ensures PassedOn(c', a, b)
  {
    assert c'.rows[a].ctx == c.rows[a].ctx && c'.rows[b].ctx == c.rows[b].ctx && c'.rows[a].newIpId == c.rows[a].newIpId;
    assert c'.past.gone == c.past.gone && a != c.nextId;
    hide Opened;
  }

  lemma FollowedPassesOn(c: Chain, c': Chain, ssh: Option<nat>)
    requires Opened(c, c', ssh) && ssh.Some? && ssh.value !in c.creators
    ensures PassedOn(c', ssh.value, c.nextId)
  {
  }

  lemma UndecidedHasNoCreator(c: Chain, id: nat)
    requires Sound(c) && id in c.rows && c.rows[id].status == DONE
    ensures id !in c.creators
  {
    RowIsOk(c, id);
    RowGives(c.desired, c.rows[id]);
    if id in c.creators {
      OnlyProgram(c, id);
    }
  }

  lemma SavesPassed(c: Chain, c': Chain, id: nat)
    requires Rests(c) && Passed(c) && SavesSet(c, c', id)
    ensures Passed(c')
  {
    assert CreatorRests(c, id, c.creators[id]);
    forall b | b in c'.past.follows ensures PassedOn(c', c'.past.follows[b], b) {
      assert PassedOn(c, c.past.follows[b], b);
    }
    hide CreatorRests, AtRest;
  }

  lemma RemovesPassed(c: Chain, c': Chain, id: nat, name: string)
    requires Passed(c) && Removes(c, c', id, name)
    ensures Passed(c')
  {
    hide Carried;
    forall b | b in c'.past.follows ensures PassedOn(c', c'.past.follows[b], b) {
      assert PassedOn(c, c.past.follows[b], b);
    }
  }

  /** The other moves change no set and no follow-up. */
  lemma OthersPassed(c: Chain, c': Chain)
    requires Passed(c) && c'.past.follows == c.past.follows && c.past.gone <= c'.past.gone
    requires c'.creators.Keys == c.creators.Keys && c'.rows.Keys == c.rows.Keys
    requires forall x | x in c.rows :: c'.rows[x].ctx == c.rows[x].ctx && c'.rows[x].newIpId == c.rows[x].newIpId
    ensures Passed(c')
  {
    forall b | b in c'.past.follows ensures PassedOn(c', c'.past.follows[b], b) {
      assert PassedOn(c, c.past.follows[b], b);
    }
  }

  lemma MovePassed(c: Chain, s: Step, c': Chain)
    requires ChainOk(c) && Passed(c) && Moves(c, s, c')
    ensures Passed(c')
  {
    hide Sound, PublisherOk, GoneOk, Struct, Passed, Mild, Rests, Collection;
    if Mild(c, c') {
      MildPassed(c, c');
    } else if s.Save? {
      SavesPassed(c, c', s.id);
    } else if s.Record? {
      RemovesPassed(c, c', s.id, s.name);
    } else {
      hide SavesSet, Removes;
      OthersPassed(c, c');
    }
  }

  lemma BeginPassed(c: Chain, ssh: Option<nat>, review: Option<nat>, taken: Option<nat>)
    requires ChainOk(c) && Passed(c)
    ensures Passed(AfterBegin(c, ssh, review, taken))
  {
    if MayBegin(c, ssh, review) {
      var c1 := TakeOver(c, taken);
      var c2 := Retry(Enrol(c1, ssh), ssh);
      BeginOpens(c, ssh, review, taken);
      hide MayBegin, Passed, Mild, TakeOver, Opened, Retry, Enrol, Sound, Account, PublisherOk, GoneOk, Struct;
      MildPassed(c, c1);
      OpenedPassed(c1, c2, ssh);
      MildPassed(c2, Retry(c2, review));
    }
  }

  lemma StepPassed(c: Chain, s: Step)
    requires ChainOk(c) && Passed(c) && Fits(c, s)
    ensures Passed(Next(c, s))
  {
    hide ChainOk, Passed, Moves, Fits, NextCreate, NextInstall, NextClean, NextOther, AfterBegin;
    if s.Begin? {
      BeginPassed(c, s.ssh, s.review, s.taken);
    } else {
      StepMoves(c, s);
      hide Next;
      MovePassed(c, s, Next(c, s));
    }
  }

  lemma {:induction false} RunPassed(c: Chain, steps: seq<Step>)
    requires ChainOk(c) && Passed(c) && AllFit(c, steps)
    ensures ChainOk(Run(c, steps)) && Passed(Run(c, steps))
    decreases |steps|
  {
    hide ChainOk, Passed, Next, Fits;
    if steps == [] {
    } else {
      StepConserves(c, steps[0]);
      StepPassed(c, steps[0]);
      RunPassed(Next(c, steps[0]), steps[1..]);
    }
  }

  /** In every run, whatever stalls: a retry has the boxes of the attempt it follows up in its set, or they are gone.
      So the retry of a retry has them too, and a retry that becomes the publisher retains them. */
  lemma RetryCarriesOn(c0: Chain, steps: seq<Step>, b: nat)
    requires Initial(c0) && AllFit(c0, steps) && b in Run(c0, steps).past.follows
    ensures var c := Run(c0, steps); var a := c.past.follows[b];
            && PassedOn(c, a, b)
            && (c.past.publisher == Some(b) ==> c.rows[a].newIpId in Kept(c) || c.rows[a].newIpId in c.past.gone)
            && forall d | d in c.past.follows && c.past.follows[d] == b :: Has(c, d, c.rows[a].newIpId)
  {
    hide Run, AllFit, ChainOk;
    InitialChain(c0);
    assert Passed(c0);
    RunPassed(c0, steps);
    var c := Run(c0, steps);
    assert PassedOn(c, c.past.follows[b], b);
    forall d | d in c.past.follows && c.past.follows[d] == b ensures Has(c, d, c.rows[c.past.follows[b]].newIpId) {
      assert PassedOn(c, b, d);
    }
  }
}
