/** The boxes of unreachable SprintBOX attempts, as long as no lease is taken over while its operation is being
    installed: one open attempt answers for each. */
module SprintSoleHeirs {
  import opened Base
  import opened Tables
  import opened SprintChain
  import opened SprintPrograms
  import opened SprintConservation
  import opened SprintMoves
  import opened SprintPublishes
  import opened SprintRuns
  import opened SprintSteps
  import opened SprintStalls
  import opened SprintHeirs

  /* ---------- one heir ---------- */

  /** A box that is not at rest is charged to one open attempt at most. */
  ghost predicate SoleHeir(c: Chain) {
    forall x: nat, y: nat, n | Open(c, x) && Open(c, y) && Charged(c, x, n) && Charged(c, y, n) && !AtRest(c, n) :: x == y
  }

  /** The box of an open attempt is not at rest, nor is that of the attempt which an open one follows up. */
  ghost predicate OwnIsLoose(c: Chain) {
    forall x: nat, n | Open(c, x) && Own(c, x, n) :: !AtRest(c, n)
  }

  ghost predicate Loose(c: Chain, id: nat) {
    id in c.rows && c.rows[id].newIpId != "" && !AtRest(c, c.rows[id].newIpId)
  }

  ghost predicate InheritedIsLoose(c: Chain) {
    forall b | b in c.past.follows && Open(c, b) :: Loose(c, c.past.follows[b])
  }

  ghost predicate HandedAreDead(c: Chain) {
    forall id | id in c.rows && HandedOn(c.rows[id]) :: Dead(c, id)
  }

  /** A program collects what its row has and what is at rest. */
  ghost predicate KeptFits(c: Chain, id: nat, kept: map<string, string>) {
    id in c.rows && forall n | n in kept :: n in c.rows[id].ctx.retained || AtRest(c, n)
  }

  ghost predicate KeptFit(c: Chain) {
    forall id | id in c.creators && c.creators[id].pc.Collected? :: KeptFits(c, id, c.creators[id].pc.kept)
  }

  ghost predicate Heirs(c: Chain) {
    SoleHeir(c) && OwnIsLoose(c) && InheritedIsLoose(c) && HandedAreDead(c) && KeptFit(c)
  }

  /* ---------- mild steps ---------- */

  /** An attempt that reopens answers for nothing. */
  lemma LateOpen(c: Chain, c': Chain, id: nat)
    requires Sound(c) && Struct(c) && Rests(c) && HandedAreDead(c) && Mild(c, c') && Frozen(c, c')
    requires Open(c', id) && !Open(c, id)
    ensures id !in c.past.follows && !Bought(c, id) && forall n | Charged(c, id, n) :: AtRest(c, n)
  {
    MildStays(c, c', id);
    hide Mild;
    if HandedOn(c.rows[id]) {
      HandedStays(c, c', id);
    }
    hide HandedAreDead, Frozen, Sound, Rests, Struct, RowRests, AllAtRest, AtRest;
    assert c.rows[id].status == FAILURE && id !in c.past.follows;
    FailedIsUnbought(c, id);
    RestingSet(c, id);
    hide Open, HandedOn;
  }

  lemma MildStays(c: Chain, c': Chain, id: nat)
    requires Mild(c, c') && id in c'.rows
    ensures id in c.rows && c'.rows[id].published == c.rows[id].published && c'.past.follows == c.past.follows
  {
    assert MildRow(c, id, c.rows[id], c'.rows[id]);
  }

  lemma RestingSet(c: Chain, id: nat)
    requires Rests(c) && id in c.rows && (c.rows[id].published.Some? || id !in c.past.follows)
    ensures forall n | n in c.rows[id].ctx.retained :: AtRest(c, n)
  {
    assert RowRests(c, id, c.rows[id]);
    hide AtRest;
  }

  lemma HandedStays(c: Chain, c': Chain, id: nat)
    requires HandedAreDead(c) && Frozen(c, c') && id in c.rows && HandedOn(c.rows[id])
    ensures id in c'.rows && c'.rows[id] == c.rows[id]
  {
    assert Dead(c, id);
    hide Dead;
  }

  lemma FailedIsUnbought(c: Chain, id: nat)
    requires Sound(c) && Struct(c) && id in c.rows && c.rows[id].status == FAILURE
    ensures !Bought(c, id)
  {
    RowIsOk(c, id);
    forall n | n in c.past.made ensures c.past.made[n] != id {
      assert c.past.made[n] == BEFORE || Ordered(c, c.past.made[n]);
    }
  }

  lemma MildCharges(c: Chain, c': Chain)
    requires Mild(c, c')
    ensures forall x: nat, n :: Charged(c', x, n) == Charged(c, x, n)
    ensures forall x: nat, n :: Own(c', x, n) == Own(c, x, n)
  {
  }

  lemma MildSoleHeir(c: Chain, c': Chain)
    requires Sound(c) && Struct(c) && Rests(c) && Heirs(c) && Mild(c, c') && Frozen(c, c')
    ensures SoleHeir(c') && OwnIsLoose(c') && InheritedIsLoose(c')
  {
    hide Sound, Struct, Rests, Mild, Frozen, Open, AtRest, Kept, HandedAreDead, KeptFit;
    MildRests(c, c');
    MildCharges(c, c');
    forall x: nat | Open(c', x) && !Open(c, x)
      ensures x !in c.past.follows && !Bought(c, x) && forall n | Charged(c, x, n) :: AtRest(c, n)
    {
      LateOpen(c, c', x);
    }
    MildFollows(c, c');
    forall b | b in c'.past.follows && Open(c', b) ensures Loose(c', c'.past.follows[b]) {
      var a := c.past.follows[b];
      assert Loose(c, a);
      LooseStays(c, c', a);
    }
    hide Loose;
  }

  lemma MildFollows(c: Chain, c': Chain)
    requires Mild(c, c')
    ensures c'.past.follows == c.past.follows
  {
  }

  lemma LooseStays(c: Chain, c': Chain, id: nat)
    requires Struct(c) && Mild(c, c') && Loose(c, id)
    requires forall n :: AtRest(c', n) == AtRest(c, n)
    ensures Loose(c', id)
  {
    hide AtRest;
    BoxStays(c, c', id);
  }

  /** Rows that are handed on by the step are its own affair. */
  lemma FrozenHanded(c: Chain, c': Chain)
    requires HandedAreDead(c) && Frozen(c, c')
    requires forall id | id in c'.rows && HandedOn(c'.rows[id]) :: (id in c.rows && HandedOn(c.rows[id])) || Dead(c', id)
    ensures HandedAreDead(c')
  {
    hide Dead, HandedOn;
  }

  lemma MildHanded(c: Chain, c': Chain)
    requires HandedAreDead(c) && Mild(c, c') && Frozen(c, c')
    ensures HandedAreDead(c')
  {
    forall id | id in c'.rows && HandedOn(c'.rows[id]) ensures id in c.rows && HandedOn(c.rows[id]) {
      assert MildRow(c, id, c.rows[id], c'.rows[id]);
    }
    hide Mild, Frozen, HandedAreDead, HandedOn, Dead;
    FrozenHanded(c, c');
  }

  lemma MildKeptFit(c: Chain, c': Chain)
    requires KeptFit(c) && Mild(c, c')
    ensures KeptFit(c')
  {
    MildRests(c, c');
    hide AtRest, Kept;
    forall id | id in c'.creators && c'.creators[id].pc.Collected? ensures KeptFits(c', id, c'.creators[id].pc.kept) {
      assert MildCreator(c, id, c'.creators[id]) && KeptFits(c, id, c.creators[id].pc.kept);
      assert MildRow(c, id, c.rows[id], c'.rows[id]);
    }
  }

  lemma MildHeirs(c: Chain, c': Chain)
    requires ChainOk(c) && Heirs(c) && Mild(c, c') && Frozen(c, c')
    ensures Heirs(c')
  {
    MildSoleHeir(c, c');
    MildHanded(c, c');
    MildKeptFit(c, c');
    hide ChainOk, SoleHeir, OwnIsLoose, InheritedIsLoose, HandedAreDead, KeptFit, Mild, Frozen;
  }

  /* ---------- the moves ---------- */

  /** Nothing becomes open or charged but boxes at rest, and nothing comes to rest that an open attempt answers for. */
  ghost predicate Settles(c: Chain, c': Chain) {
    && c'.past.follows == c.past.follows && c.rows.Keys <= c'.rows.Keys
    && (forall x | x in c.rows :: c'.rows[x].newIpId == c.rows[x].newIpId)
    && (forall x: nat | Open(c', x) :: Open(c, x))
    && (forall n | AtRest(c, n) :: AtRest(c', n))
    && (forall x: nat, n | Open(c', x) && Charged(c', x, n) :: Charged(c, x, n) || AtRest(c', n))
    && (forall x: nat, n | Open(c', x) && Own(c', x, n) :: Own(c, x, n))
    && (forall x: nat, n | Open(c', x) && Charged(c, x, n) && AtRest(c', n) :: AtRest(c, n))
  }

  lemma SettlesKeeps(c: Chain, c': Chain)
    requires SoleHeir(c) && OwnIsLoose(c) && InheritedIsLoose(c) && Passed(c) && Settles(c, c')
    ensures SoleHeir(c') && OwnIsLoose(c') && InheritedIsLoose(c')
  {
    forall b | b in c'.past.follows && Open(c', b) ensures Loose(c', c'.past.follows[b]) {
      var a := c.past.follows[b];
      assert PassedOn(c, a, b) && Loose(c, a);
      assert AtRest(c, c.rows[a].newIpId) || Charged(c, b, c.rows[a].newIpId) by {
        InheritedIsCharged(c, a, b);
      }
    }
    forall x: nat, n | Open(c', x) && Own(c', x, n) ensures !AtRest(c', n) {
      assert Open(c, x) && Own(c, x, n) && Charged(c, x, n);
    }
    hide Open, AtRest, Own, Charged, PassedOn;
  }

  lemma InheritedIsCharged(c: Chain, a: nat, b: nat)
    requires PassedOn(c, a, b)
    ensures AtRest(c, c.rows[a].newIpId) || Charged(c, b, c.rows[a].newIpId)
  {
  }

  lemma CollectsHeirs(c: Chain, c': Chain, id: nat)
    requires ChainOk(c) && Heirs(c) && Collects(c, c', id) && Frozen(c, c')
    ensures Heirs(c')
  {
    hide Sound, Struct, PublisherOk, Rests, GoneOk, Collection, Frozen;
    CollectionRests(c, id);
    var kept := c.rows[id].ctx.retained + Collection(c, c.creators[id]);
    assert KeptFits(c, id, kept);
    assert Kept(c') == Kept(c) && forall n :: AtRest(c', n) == AtRest(c, n);
    hide ChainOk, AtRest, Kept;
    assert forall x: nat :: Open(c', x) == Open(c, x);
    assert forall x: nat, n :: Charged(c', x, n) == Charged(c, x, n) && Own(c', x, n) == Own(c, x, n);
    assert forall x, k :: KeptFits(c, x, k) ==> KeptFits(c', x, k);
    hide Open, Charged, Own, KeptFits;
    CollectsHanded(c, c', id);
  }

  lemma CollectsHanded(c: Chain, c': Chain, id: nat)
    requires HandedAreDead(c) && Collects(c, c', id)
    ensures HandedAreDead(c')
  {
    hide Collection;
    assert forall x, w :: Works(c', w, x) == Works(c, w, x);
    hide Works;
    forall x | x in c'.rows && HandedOn(c'.rows[x]) ensures Dead(c', x) {
      assert Dead(c, x);
    }
  }

  lemma SavesHeirs(c: Chain, c': Chain, id: nat)
    requires ChainOk(c) && Passed(c) && Heirs(c) && SavesSet(c, c', id) && Frozen(c, c')
    ensures Heirs(c')
  {
    var ctx :| Saves(c, c', id, ctx) && c.rows[id].published.None?;
    SaveFrame(c, c', id, ctx);
    assert KeptFits(c, id, ctx.retained);
    hide ChainOk, Saves, SavesSet, AtRest, Kept, Frozen, Passed, SoleHeir, OwnIsLoose, InheritedIsLoose,
         HandedAreDead, Open;
    SavedSettles(c, c', id);
    SettlesKeeps(c, c');
    SavedKeptFit(c, c', id);
    SavedHanded(c, c', id);
  }

  lemma SavedSettles(c: Chain, c': Chain, id: nat)
    requires id in c.rows && c'.rows.Keys == c.rows.Keys && KeptFits(c, id, c'.rows[id].ctx.retained)
    requires c'.past == c.past
    requires forall x | x in c.rows && x != id :: c'.rows[x] == c.rows[x]
    requires c'.rows[id].newIpId == c.rows[id].newIpId
    requires forall n :: AtRest(c', n) == AtRest(c, n)
    requires forall x: nat :: Open(c', x) == Open(c, x)
    ensures Settles(c, c')
  {
    hide AtRest, Open;
  }

  lemma SavedKeptFit(c: Chain, c': Chain, id: nat)
    requires KeptFit(c) && id in c.rows && c'.rows.Keys == c.rows.Keys && id in c'.creators
    requires forall x | x in c.rows && x != id :: c'.rows[x] == c.rows[x]
    requires c'.creators == c.creators[id := c'.creators[id]] && !c'.creators[id].pc.Collected?
    requires forall n :: AtRest(c', n) == AtRest(c, n)
    ensures KeptFit(c')
  {
    hide AtRest;
    forall x | x in c'.creators && c'.creators[x].pc.Collected? ensures KeptFits(c', x, c'.creators[x].pc.kept) {
      assert KeptFits(c, x, c.creators[x].pc.kept);
    }
  }

  lemma SavedHanded(c: Chain, c': Chain, id: nat)
    requires HandedAreDead(c) && Frozen(c, c') && c'.rows.Keys == c.rows.Keys && id in c.rows
    requires forall x | x in c.rows && x != id :: c'.rows[x] == c.rows[x]
    requires c'.rows[id].(ctx := c.rows[id].ctx) == c.rows[id]
    ensures HandedAreDead(c')
  {
    hide Frozen, HandedAreDead;
    FrozenHanded(c, c');
  }

  lemma BuysHeirs(c: Chain, c': Chain, id: nat, name: string)
    requires ChainOk(c) && Heirs(c) && Buys(c, c', id, name) && Frozen(c, c')
    ensures Heirs(c')
  {
    BuyFrame(c, c', id, name);
    NewIsLoose(c, name);
    BuyCharges(c, c', id, name);
    hide ChainOk, AtRest, Kept, Open, Frozen, HandedAreDead, Charged, Own;
    FrozenHanded(c, c');
    BoughtKeptFit(c, c', id, name);
    BoughtSole(c, c', id, name);
  }

  lemma BoughtSole(c: Chain, c': Chain, id: nat, name: string)
    requires SoleHeir(c) && OwnIsLoose(c) && InheritedIsLoose(c) && c'.rows == c.rows
    requires c'.past.follows == c.past.follows
    requires forall n :: AtRest(c', n) == AtRest(c, n)
    requires forall x: nat :: Open(c', x) == Open(c, x)
    requires forall x: nat, n :: Charged(c', x, n) == if n == name then x == id else Charged(c, x, n)
    requires forall x: nat, n | n != name :: Own(c', x, n) == Own(c, x, n)
    requires !AtRest(c, name)
    ensures SoleHeir(c') && OwnIsLoose(c') && InheritedIsLoose(c')
  {
    hide AtRest, Open, Charged, Own;
  }

  lemma BoughtKeptFit(c: Chain, c': Chain, id: nat, name: string)
    requires KeptFit(c) && Buys(c, c', id, name) && forall n :: AtRest(c', n) == AtRest(c, n)
    ensures KeptFit(c')
  {
    hide AtRest;
    forall x | x in c'.creators && c'.creators[x].pc.Collected? ensures KeptFits(c', x, c'.creators[x].pc.kept) {
      assert KeptFits(c, x, c.creators[x].pc.kept);
    }
  }

  lemma NewIsLoose(c: Chain, name: string)
    requires Conserved(c) && name !in c.past.made
    ensures !AtRest(c, name) && forall x | x in c.rows :: name !in c.rows[x].ctx.retained
  {
    forall x | x in c.rows ensures name !in c.rows[x].ctx.retained {
      assert AllBefore(c, x, c.rows[x].ctx.retained);
    }
  }

  lemma BuyCharges(c: Chain, c': Chain, id: nat, name: string)
    requires Buys(c, c', id, name) && forall x | x in c.rows :: name !in c.rows[x].ctx.retained
    ensures forall x: nat, n :: Charged(c', x, n) == if n == name then x == id else Charged(c, x, n)
    ensures forall x: nat, n | n != name :: Own(c', x, n) == Own(c, x, n)
  {
  }

  lemma PublishesHeirs(c: Chain, c': Chain, id: nat, w: nat)
    requires ChainOk(c) && Passed(c) && Heirs(c) && Publishes(c, c', id) && Works(c, w, id) && Frozen(c, c')
    ensures Heirs(c')
  {
    PublishFrame(c, c', id);
    PublisherIsOpen(c, id, w);
    assert Own(c, id, c.rows[id].newIpId);
    PublishSettles(c, c', id);
    PublishKeptFit(c, c', id);
    hide ChainOk, Passed, Publishes, AtRest, Kept, Frozen, SoleHeir, OwnIsLoose, InheritedIsLoose, HandedAreDead,
         Settles;
    SettlesKeeps(c, c');
    PublishHanded(c, c', id);
  }

  /** What is published was open. */
  lemma PublisherIsOpen(c: Chain, id: nat, w: nat)
    requires Sound(c) && Struct(c) && HandedAreDead(c) && Current(c, id) && c.rows[id].newIpId != "" && Works(c, w, id)
    ensures Open(c, id)
  {
    assert Own(c, id, c.rows[id].newIpId);
    if c.rows[id].status == FAILURE {
      FailedIsUnbought(c, id);
    }
    assert HandedOn(c.rows[id]) ==> Dead(c, id);
    hide Sound, Struct;
  }

  lemma PublishSettles(c: Chain, c': Chain, id: nat)
    requires SoleHeir(c) && Open(c, id) && Publishes(c, c', id) && Own(c, id, c.rows[id].newIpId)
    requires Kept(c') == c.rows[id].ctx.retained && forall n | AtRest(c, n) :: AtRest(c', n)
    ensures Settles(c, c')
  {
    assert forall x: nat, n :: Charged(c', x, n) == Charged(c, x, n) && Own(c', x, n) == Own(c, x, n);
    assert forall x: nat | Open(c', x) :: x != id && Open(c, x);
    assert forall n | AtRest(c', n) :: AtRest(c, n) || Charged(c, id, n);
    hide Open, Own, AtRest, Charged, Kept;
  }

  lemma PublishKeptFit(c: Chain, c': Chain, id: nat)
    requires KeptFit(c) && Publishes(c, c', id) && forall n | AtRest(c, n) :: AtRest(c', n)
    ensures KeptFit(c')
  {
    hide AtRest;
    forall x | x in c'.creators && c'.creators[x].pc.Collected? ensures KeptFits(c', x, c'.creators[x].pc.kept) {
      assert KeptFits(c, x, c.creators[x].pc.kept);
    }
  }

  lemma PublishHanded(c: Chain, c': Chain, id: nat)
    requires HandedAreDead(c) && Publishes(c, c', id) && Frozen(c, c')
    ensures HandedAreDead(c')
  {
    hide Frozen, HandedAreDead;
    FrozenHanded(c, c');
  }

  lemma RemovesHeirs(c: Chain, c': Chain, id: nat, name: string)
    requires ChainOk(c) && Passed(c) && Heirs(c) && Removes(c, c', id, name) && Frozen(c, c')
    ensures Heirs(c')
  {
    RemoveFrame(c, c', id, name);
    RestingSet(c, id);
    assert AtRest(c, name);
    RemoveSettles(c, c', id, name);
    RemoveKeptFit(c, c', id, name);
    hide ChainOk, Passed, Removes, AtRest, Kept, Frozen, SoleHeir, OwnIsLoose, InheritedIsLoose, HandedAreDead, Settles;
    SettlesKeeps(c, c');
    RemoveHanded(c, c', id, name);
  }

  lemma RemoveSettles(c: Chain, c': Chain, id: nat, name: string)
    requires Removes(c, c', id, name) && AtRest(c, name)
    requires Kept(c') == (if c.past.publisher == Some(id) then Kept(c) - {name} else Kept(c))
    requires forall n | AtRest(c, n) :: AtRest(c', n)
    requires forall x: nat :: Open(c', x) == Open(c, x)
    ensures Settles(c, c')
  {
    hide Carried, Open;
    assert forall x: nat, n | Charged(c', x, n) :: Charged(c, x, n);
    assert forall x: nat, n :: Own(c', x, n) == Own(c, x, n);
    assert forall n | AtRest(c', n) :: AtRest(c, n);
    hide AtRest, Charged, Own, Kept;
  }

  lemma RemoveKeptFit(c: Chain, c': Chain, id: nat, name: string)
    requires KeptFit(c) && Removes(c, c', id, name) && forall n | AtRest(c, n) :: AtRest(c', n)
    ensures KeptFit(c')
  {
    hide AtRest, Carried;
    forall x | x in c'.creators && c'.creators[x].pc.Collected? ensures KeptFits(c', x, c'.creators[x].pc.kept) {
      assert KeptFits(c, x, c.creators[x].pc.kept);
    }
  }

  lemma RemoveHanded(c: Chain, c': Chain, id: nat, name: string)
    requires HandedAreDead(c) && Removes(c, c', id, name) && Frozen(c, c')
    ensures HandedAreDead(c')
  {
    hide Frozen, HandedAreDead, Carried;
    FrozenHanded(c, c');
  }

  lemma ConfigureHeirs(c: Chain, desired: nat)
    requires Heirs(c)
    ensures Heirs(c.(desired := desired))
  {
    var c' := c.(desired := desired);
    assert Kept(c') == Kept(c) && forall n :: AtRest(c', n) == AtRest(c, n);
    assert forall x: nat :: Open(c', x) == Open(c, x);
    assert forall x: nat, n :: Charged(c', x, n) == Charged(c, x, n) && Own(c', x, n) == Own(c, x, n);
    assert forall x, k :: KeptFits(c', x, k) == KeptFits(c, x, k);
    assert forall x, w :: Works(c', w, x) == Works(c, w, x);
    hide AtRest, Kept, Open, Charged, Own, KeptFits, Works;
  }

  lemma MoveHeirs(c: Chain, s: Step, c': Chain)
    requires ChainOk(c) && Passed(c) && Heirs(c) && Moves(c, s, c') && Frozen(c, c')
    ensures Heirs(c')
  {
    hide ChainOk, Passed, Heirs, Mild, Collects, SavesSet, Buys, Publishes, Removes, Frozen;
    if Mild(c, c') {
      MildHeirs(c, c');
    } else if s.Collect? {
      CollectsHeirs(c, c', s.id);
    } else if s.Save? {
      SavesHeirs(c, c', s.id);
    } else if s.Order? {
      BuysHeirs(c, c', s.id, s.effect.value);
    } else if s.Publish? {
      PublishesHeirs(c, c', c.installers[s.w].id, s.w);
    } else if s.Record? {
      RemovesHeirs(c, c', s.id, s.name);
    } else {
      ConfigureHeirs(c, s.desired);
    }
  }

  /* ---------- opening an attempt ---------- */

  lemma OpenedRows(c: Chain, c': Chain, ssh: Option<nat>)
    requires Opened(c, c', ssh)
    ensures c'.past.made == c.past.made && c'.past.gone == c.past.gone && c'.past.publisher == c.past.publisher
    ensures c'.box == c.box
    ensures c.nextId !in c.rows && c'.rows.Keys == c.rows.Keys + {c.nextId}
    ensures c'.rows[c.nextId].ctx.retained == Inherited(c, ssh)
    ensures forall x | x in c.rows :: c'.rows[x].ctx == c.rows[x].ctx && c'.rows[x].newIpId == c.rows[x].newIpId
    ensures c'.creators == c.creators[c.nextId := Creator(c.box, c.ip, Loading)] && c'.installers == c.installers
    ensures c'.past.follows == if ssh.Some? then c.past.follows[c.nextId := ssh.value] else c.past.follows
    ensures ssh.Some? ==> ssh.value in c.rows && c.rows[ssh.value].newIpId != ""
  {
    hide Inherited;
  }

  lemma OpenedRests(c: Chain, c': Chain, ssh: Option<nat>)
    requires PublisherOk(c) && Opened(c, c', ssh)
    ensures Kept(c') == Kept(c) && forall n :: AtRest(c', n) == AtRest(c, n)
  {
    hide Opened, Inherited;
    OpenedRows(c, c', ssh);
  }

  lemma OpenedOpens(c: Chain, c': Chain, ssh: Option<nat>)
    requires Opened(c, c', ssh)
    ensures forall x: nat | x != c.nextId :: Open(c', x) == (Open(c, x) && ssh != Some(x))
    ensures Open(c', c.nextId) && (ssh.Some? ==> Open(c, ssh.value))
  {
  }

  lemma NextHasNoBox(c: Chain)
    requires Struct(c) && c.nextId !in c.rows
    ensures forall n :: !Own(c, c.nextId, n)
  {
    forall n | n in c.past.made ensures c.past.made[n] != c.nextId {
      assert c.past.made[n] == BEFORE || Ordered(c, c.past.made[n]);
    }
  }

  lemma OpenedCharges(c: Chain, c': Chain, ssh: Option<nat>)
    requires Struct(c) && Opened(c, c', ssh)
    ensures forall x: nat, n | x != c.nextId :: Charged(c', x, n) == Charged(c, x, n)
    ensures forall x: nat, n :: Own(c', x, n) == Own(c, x, n)
    ensures forall n :: !Own(c, c.nextId, n)
    ensures forall n | Charged(c', c.nextId, n) :: ssh.Some? && Charged(c, ssh.value, n)
  {
    OpenedRows(c, c', ssh);
    hide Opened, Inherited;
    NextHasNoBox(c);
    InheritedIsOwned(c, ssh);
    hide Struct;
    ChargesStay(c, c', c.nextId);
    forall n | Charged(c', c.nextId, n) ensures n in Inherited(c, ssh) {
      assert !Own(c, c.nextId, n);
    }
    hide Charged;
  }

  lemma ChargesStay(c: Chain, c': Chain, id: nat)
    requires c'.past.made == c.past.made && id !in c.rows && c'.rows.Keys == c.rows.Keys + {id}
    requires forall x | x in c.rows :: c'.rows[x].ctx == c.rows[x].ctx
    ensures forall x: nat, n | x != id :: Charged(c', x, n) == Charged(c, x, n)
    ensures forall x: nat, n :: Own(c', x, n) == Own(c, x, n)
  {
  }

  lemma InheritedIsOwned(c: Chain, ssh: Option<nat>)
    requires Struct(c) && (ssh.Some? ==> ssh.value in c.rows && c.rows[ssh.value].newIpId != "")
    ensures forall n | n in Inherited(c, ssh) :: ssh.Some? && Charged(c, ssh.value, n)
  {
    assert ssh.Some? ==> Own(c, ssh.value, c.rows[ssh.value].newIpId);
  }

  lemma OpenedHeirs(c: Chain, c': Chain, ssh: Option<nat>)
    requires ChainOk(c) && Heirs(c) && Opened(c, c', ssh) && (ssh.Some? ==> forall w :: !Works(c, w, ssh.value))
    ensures Heirs(c')
  {
    OpenedInherits(c, c', ssh);
    OpenedHanded(c, c', ssh);
    OpenedKeptFit(c, c', ssh);
    OpenedSole(c, c', ssh);
    hide ChainOk, Opened, SoleHeir, OwnIsLoose, InheritedIsLoose, HandedAreDead, KeptFit;
  }

  lemma OpenedSole(c: Chain, c': Chain, ssh: Option<nat>)
    requires ChainOk(c) && SoleHeir(c) && OwnIsLoose(c) && Opened(c, c', ssh)
    ensures SoleHeir(c') && OwnIsLoose(c')
  {
    OpenedRests(c, c', ssh);
    OpenedOpens(c, c', ssh);
    OpenedCharges(c, c', ssh);
    hide ChainOk, Opened, AtRest, Kept, Open, Charged, Own;
    SoleFrom(c, c', c.nextId, ssh);
  }

  lemma SoleFrom(c: Chain, c': Chain, id: nat, ssh: Option<nat>)
    requires SoleHeir(c) && OwnIsLoose(c) && forall n :: AtRest(c', n) == AtRest(c, n)
    requires forall x: nat | x != id :: Open(c', x) == (Open(c, x) && ssh != Some(x))
    requires ssh.Some? ==> Open(c, ssh.value)
    requires forall x: nat, n | x != id :: Charged(c', x, n) == Charged(c, x, n)
    requires forall n | Charged(c', id, n) :: ssh.Some? && Charged(c, ssh.value, n)
    requires forall x: nat, n :: Own(c', x, n) == Own(c, x, n)
    requires forall n :: !Own(c, id, n)
    ensures SoleHeir(c') && OwnIsLoose(c')
  {
    hide AtRest, Open, Charged, Own;
  }

  lemma OpenedInherits(c: Chain, c': Chain, ssh: Option<nat>)
    requires Struct(c) && PublisherOk(c) && Rests(c) && OwnIsLoose(c) && InheritedIsLoose(c) && Opened(c, c', ssh)
    ensures InheritedIsLoose(c')
  {
    OpenedRests(c, c', ssh);
    OpenedOpens(c, c', ssh);
    OpenedRows(c, c', ssh);
    assert ssh.Some? ==> Own(c, ssh.value, c.rows[ssh.value].newIpId);
    FollowersHaveRows(c);
    hide Opened, Inherited, AtRest, Kept, Open, Charged, Own, Struct, Rests, PublisherOk;
    forall b | b in c'.past.follows && Open(c', b) ensures Loose(c', c'.past.follows[b]) {
      assert b != c.nextId ==> Loose(c, c.past.follows[b]);
    }
  }

  lemma FollowersHaveRows(c: Chain)
    requires Rests(c)
    ensures c.past.follows.Keys <= c.rows.Keys
  {
  }

  lemma OpenedHanded(c: Chain, c': Chain, ssh: Option<nat>)
    requires Sound(c) && HandedAreDead(c) && Opened(c, c', ssh) && (ssh.Some? ==> forall w :: !Works(c, w, ssh.value))
    ensures HandedAreDead(c')
  {
    hide Sound, Frozen, HandedAreDead;
    OpenedFreezes(c, c', ssh);
    if ssh.Some? {
      UndecidedHasNoCreator(c, ssh.value);
      FollowedDies(c, c', ssh);
    }
    hide Dead;
    FrozenHanded(c, c');
  }

  lemma FollowedDies(c: Chain, c': Chain, ssh: Option<nat>)
    requires Opened(c, c', ssh) && ssh.Some? && ssh.value !in c.creators && forall w :: !Works(c, w, ssh.value)
    ensures Dead(c', ssh.value)
  {
    OpenedRows(c, c', ssh);
    assert forall w :: Works(c', w, ssh.value) == Works(c, w, ssh.value);
    hide Works, Inherited;
  }

  lemma OpenedKeptFit(c: Chain, c': Chain, ssh: Option<nat>)
    requires PublisherOk(c) && KeptFit(c) && Opened(c, c', ssh)
    ensures KeptFit(c')
  {
    hide Opened, Inherited, AtRest, Kept, PublisherOk;
    OpenedRests(c, c', ssh);
    OpenedRows(c, c', ssh);
    forall x | x in c'.creators && c'.creators[x].pc.Collected? ensures KeptFits(c', x, c'.creators[x].pc.kept) {
      assert x != c.nextId && KeptFits(c, x, c.creators[x].pc.kept);
    }
  }

  lemma BeginHeirs(c: Chain, ssh: Option<nat>, review: Option<nat>, taken: Option<nat>)
    requires ChainOk(c) && Heirs(c) && Unasked(c) && Spares(c, Begin(ssh, review, taken))
    ensures Heirs(AfterBegin(c, ssh, review, taken))
  {
    hide ChainOk, MayBegin, Heirs, Unasked, Mild, Frozen, TakeOver, Opened, Retry, Enrol, Works;
    if MayBegin(c, ssh, review) {
      var c1 := TakeOver(c, taken);
      var c2 := Retry(Enrol(c1, ssh), ssh);
      BeginOpens(c, ssh, review, taken);
      SparedTakeOver(c, taken);
      TakeOverFreezes(c, taken);
      ReviewFreezes(c2, review);
      MildHeirs(c, c1);
      FollowedIsFree(c1, c2, ssh);
      OpenedHeirs(c1, c2, ssh);
      MildHeirs(c2, Retry(c2, review));
    }
  }

  lemma FollowedIsFree(c: Chain, c': Chain, ssh: Option<nat>)
    requires Unasked(c) && Opened(c, c', ssh)
    ensures ssh.Some? ==> forall w :: !Works(c, w, ssh.value)
  {
    if ssh.Some? {
      AskedIsFree(c, ssh.value);
    }
  }

  /* ---------- every spared run ---------- */

  lemma StepHeirs(c: Chain, s: Step)
    requires ChainOk(c) && Passed(c) && Heirs(c) && Unasked(c) && Spares(c, s) && Fits(c, s)
    ensures Heirs(Next(c, s))
  {
    hide ChainOk, Passed, Heirs, Unasked, Moves, Frozen, Fits, NextCreate, NextInstall, NextClean, NextOther,
         AfterBegin, Spares;
    StepFreezes(c, s);
    if s.Begin? {
      BeginHeirs(c, s.ssh, s.review, s.taken);
    } else {
      StepMoves(c, s);
      hide Next;
      MoveHeirs(c, s, Next(c, s));
    }
  }

  /** Everything a spared run keeps. */
  ghost predicate Kin(c: Chain) {
    ChainOk(c) && Single(c) && Unasked(c) && Passed(c) && Heirs(c)
  }

  lemma StepKin(c: Chain, s: Step)
    requires Kin(c) && Spares(c, s) && Fits(c, s)
    ensures Kin(Next(c, s))
  {
    hide ChainOk, Single, Passed, Heirs, Unasked, Next, Fits, Spares, Joins;
    StepConserves(c, s);
    UnaskedJoinsNothing(c, s);
    StepSingle(c, s);
    StepUnasked(c, s);
    StepPassed(c, s);
    StepHeirs(c, s);
  }

  lemma {:induction false} RunKin(c: Chain, steps: seq<Step>)
    requires Kin(c) && AllFit(c, steps) && AllSpare(c, steps)
    ensures Kin(Run(c, steps))
    decreases |steps|
  {
    hide Kin, Next, Fits, Spares;
    if steps == [] {
    } else {
      StepKin(c, steps[0]);
      RunKin(Next(c, steps[0]), steps[1..]);
    }
  }

  lemma InitialKin(c: Chain)
    requires Initial(c)
    ensures Kin(c)
  {
    InitialChain(c);
  }

  /** Without the takeover of an operation that is being installed, exactly one open attempt answers for each box that
      is not at rest. */
  lemma OneAnswersForEachBox(c0: Chain, steps: seq<Step>, n: string)
    requires Initial(c0) && AllFit(c0, steps) && AllSpare(c0, steps)
    requires var c := Run(c0, steps); n in c.past.made && !AtRest(c, n)
    ensures var c := Run(c0, steps);
            exists x: nat :: Open(c, x) && Charged(c, x, n) && forall y: nat | Open(c, y) && Charged(c, y, n) :: y == x
  {
    hide Run, AllFit, AllSpare, ChainOk, Single, Unasked, Passed, AtRest, Open, Charged;
    InitialKin(c0);
    RunKin(c0, steps);
    NoBoxIsForgotten(c0, steps, n);
    var c := Run(c0, steps);
    var x: nat :| Open(c, x) && Charged(c, x, n);
    assert forall y: nat | Open(c, y) && Charged(c, y, n) :: y == x;
  }
}
