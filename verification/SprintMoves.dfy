/** The steps of a SprintBOX chain that move boxes: opening an attempt, collecting and saving its set, buying,
    publishing, and recording a deletion. */
module SprintMoves {
  import opened Base
  import opened Tables
  import opened OperationRows
  import opened SprintChain
  import opened SprintPrograms
  import opened SprintConservation

  /* ---------- opening an attempt ---------- */

  /** The unreachable attempt that is followed up: its box is known and newer than the publication. */
  ghost predicate Followable(c: Chain, ssh: Option<nat>) {
    ssh.Some? ==> Current(c, ssh.value) && c.rows[ssh.value].newIpId != ""
  }

  /** A new row is entered, with a set and a program of its own. */
  ghost predicate Enrolled(c: Chain, c': Chain, id: nat, kept: map<string, string>) {
    && id == c.nextId && c'.nextId == id + 1 && id !in c.rows && id in c'.rows && c'.rows == c.rows[id := c'.rows[id]]
    && c'.desired == c.desired && c'.box == c.box && c'.ip == c.ip
    && c'.past == c.past.(follows := c'.past.follows)
    && c.past.follows.Keys <= c'.past.follows.Keys <= c.past.follows.Keys + {id}
    && c'.creators == c.creators[id := Creator(c.box, c.ip, Loading)]
    && var row := c'.rows[id];
    && row.published.None? && row.status == PENDING && row.revision == c.desired && row.newIpId == ""
    && row.ctx.marker == "" && row.ctx.retained == kept && (kept == map[] || id in c'.past.follows)
  }

  function Inherited(c: Chain, ssh: Option<nat>): map<string, string> {
    if ssh.Some? && ssh.value in c.rows then Abandoned(c.rows[ssh.value]) else map[]
  }

  lemma EnrolEnters(c: Chain, ssh: Option<nat>)
    requires Struct(c)
    ensures Enrolled(c, Enrol(c, ssh), c.nextId, Inherited(c, ssh))
  {
    hide Abandoned;
    assert c.nextId !in c.rows;
  }

  lemma InheritedIsOlder(c: Chain, ssh: Option<nat>)
    requires Struct(c) && Followable(c, ssh)
    ensures AllBefore(c, c.nextId, Inherited(c, ssh))
  {
    if ssh.Some? {
      assert AllBefore(c, ssh.value, c.rows[ssh.value].ctx.retained) && Own(c, ssh.value, c.rows[ssh.value].newIpId);
    }
  }

  lemma EnrolStruct(c: Chain, c': Chain, id: nat, kept: map<string, string>)
    requires Struct(c) && Enrolled(c, c', id, kept) && AllBefore(c, id, kept)
    ensures Struct(c')
  {
    assert c.box != "" ==> c.past.made[c.box] == BEFORE || Ordered(c, c.past.made[c.box]);
    forall x | x in c'.creators ensures SetsOut(c, x, c'.creators[x]) {
      assert x != id ==> SetsOut(c, x, c.creators[x]);
    }
    StructFrom(c, c');
  }

  lemma EnrolCurrent(c: Chain, c': Chain, id: nat, kept: map<string, string>)
    requires PublisherOk(c) && Enrolled(c, c', id, kept)
    ensures Kept(c') == Kept(c) && forall n :: AtRest(c', n) == AtRest(c, n)
    ensures forall x: nat | x != id :: Current(c', x) == Current(c, x)
    ensures forall x: nat | x != id :: Open(c, x) ==> Open(c', x)
  {
  }

  lemma EnrolPublisher(c: Chain, c': Chain, id: nat, kept: map<string, string>)
    requires Struct(c) && PublisherOk(c) && Enrolled(c, c', id, kept)
    ensures PublisherOk(c')
  {
    EnrolCurrent(c, c', id, kept);
    assert c.past.publisher.Some? ==> c.past.publisher.value < id;
    hide Struct, Current, Kept, AtRest, Open;
  }

  lemma EnrolAccount(c: Chain, c': Chain, id: nat, kept: map<string, string>)
    requires Struct(c) && PublisherOk(c) && Account(c) && Enrolled(c, c', id, kept)
    ensures Account(c')
  {
    EnrolCurrent(c, c', id, kept);
    assert id !in c.past.follows;
    EnrolCarries(c, c', id);
    EnrolResting(c, c', id);
    hide PublisherOk, Carries, Rests, AtRest, Open, Kept, Current, Accounted;
    forall n | n in c'.past.made ensures Accounted(c', n) {
      EnrolAccounted(c, c', id, kept, n);
    }
  }

  lemma EnrolAccounted(c: Chain, c': Chain, id: nat, kept: map<string, string>, n: string)
    requires PublisherOk(c) && Enrolled(c, c', id, kept) && Accounted(c, n)
    ensures Accounted(c', n)
  {
    hide PublisherOk, AtRest, Open, Kept;
    EnrolCurrent(c, c', id, kept);
    if !AtRest(c, n) {
      var x: nat :| Open(c, x) && Charged(c, x, n);
      OpenHasRow(c, x);
      assert Open(c', x) && Charged(c', x, n);
    }
  }

  lemma OpenHasRow(c: Chain, id: nat)
    requires Open(c, id)
    ensures id in c.rows
  {
  }

  lemma EnrolCarries(c: Chain, c': Chain, id: nat)
    requires Carries(c) && id !in c.rows && id in c'.rows && c'.rows == c.rows[id := c'.rows[id]]
    requires c'.rows[id].ctx.marker == ""
    requires Kept(c') == Kept(c) && c'.box == c.box && c'.past.gone == c.past.gone
    requires forall x: nat | x != id :: Current(c', x) == Current(c, x)
    requires id in c'.creators && c'.creators == c.creators[id := c'.creators[id]] && !c'.creators[id].pc.Collected?
    ensures Carries(c')
  {
    hide Kept;
    forall x: nat | Current(c', x) && x != id && c'.rows[x].ctx.marker != "" ensures CarriesAll(c', c'.rows[x].ctx.retained) {
      assert CarriesAll(c, c.rows[x].ctx.retained);
    }
    forall x: nat | Current(c', x) && x in c'.creators && c'.creators[x].pc.Collected?
      ensures CarriesAll(c', c'.creators[x].pc.kept)
    {
      assert CarriesAll(c, c.creators[x].pc.kept);
    }
  }

  lemma EnrolResting(c: Chain, c': Chain, id: nat)
    requires Rests(c) && id !in c.rows && id in c'.rows && c'.rows == c.rows[id := c'.rows[id]]
    requires c'.rows[id].published.None?
    requires forall n :: AtRest(c', n) == AtRest(c, n)
    requires c.past.follows.Keys <= c'.past.follows.Keys <= c.past.follows.Keys + {id}
    requires id !in c'.past.follows ==> c'.rows[id].ctx.retained == map[]
    requires c'.creators == c.creators[id := Creator(c.box, c.ip, Loading)] && (c.box != "" ==> AtRest(c, c.box))
    ensures Rests(c')
  {
    hide AtRest;
  }

  lemma EnrolGone(c: Chain, c': Chain, id: nat, kept: map<string, string>)
    requires PublisherOk(c) && GoneOk(c) && Enrolled(c, c', id, kept) && (!c.past.overlapped ==> NoneGone(c, kept))
    ensures GoneOk(c')
  {
    hide PublisherOk, Kept, AtRest, Open;
    EnrolCurrent(c, c', id, kept);
  }

  lemma InheritedIsNotGone(c: Chain, ssh: Option<nat>)
    requires Struct(c) && PublisherOk(c) && GoneOk(c) && Followable(c, ssh)
    ensures !c.past.overlapped ==> NoneGone(c, Inherited(c, ssh))
  {
    if ssh.Some? {
      assert Own(c, ssh.value, c.rows[ssh.value].newIpId) && c.rows[ssh.value].newIpId !in c.past.gone;
    }
  }

  lemma EnrolConserved(c: Chain, ssh: Option<nat>)
    requires Conserved(c) && Followable(c, ssh)
    ensures Conserved(Enrol(c, ssh)) && Enrolled(c, Enrol(c, ssh), c.nextId, Inherited(c, ssh))
  {
    hide Struct, PublisherOk, Account, GoneOk, Enrol, Enrolled, Inherited, Followable, AllBefore, NoneGone;
    EnrolEnters(c, ssh);
    InheritedIsOlder(c, ssh);
    InheritedIsNotGone(c, ssh);
    var c', id, kept := Enrol(c, ssh), c.nextId, Inherited(c, ssh);
    EnrolStruct(c, c', id, kept);
    EnrolPublisher(c, c', id, kept);
    EnrolAccount(c, c', id, kept);
    EnrolGone(c, c', id, kept);
  }

  /* ---------- handing on ---------- */

  /** An attempt is handed on to another that carries its boxes. */
  ghost predicate HandsOn(c: Chain, c': Chain, a: nat, b: nat) {
    && a in c.rows && c.rows[a].published.None? && c' == Put(c, a, c.rows[a].(action := RETRY_REQUESTED)) && a != b
    && Open(c, b) && c.rows[a].newIpId != "" && c.rows[a].newIpId in c.rows[b].ctx.retained
    && c.rows[a].ctx.retained.Keys <= c.rows[b].ctx.retained.Keys
  }

  lemma HandOnFrame(c: Chain, c': Chain, a: nat, b: nat)
    requires HandsOn(c, c', a, b)
    ensures c'.rows.Keys == c.rows.Keys && c' == c.(rows := c'.rows)
    ensures forall x | x in c.rows :: c'.rows[x].(action := c.rows[x].action) == c.rows[x] && (x != a ==> c'.rows[x] == c.rows[x])
    ensures Kept(c') == Kept(c) && forall n :: AtRest(c', n) == AtRest(c, n)
    ensures forall x: nat :: Current(c', x) == Current(c, x)
    ensures forall x: nat | x != a :: Open(c', x) == Open(c, x)
  {
  }

  lemma HandOnStruct(c: Chain, c': Chain, a: nat, b: nat)
    requires Struct(c) && HandsOn(c, c', a, b)
    ensures Struct(c')
  {
    hide HandsOn, Current, Open, Kept, AtRest;
    HandOnFrame(c, c', a, b);
    assert forall x | x in c.rows :: Ordered(c', x) == Ordered(c, x);
    StructFrom(c, c');
  }

  lemma HandOnAccounted(c: Chain, c': Chain, a: nat, b: nat, n: string)
    requires Struct(c) && HandsOn(c, c', a, b) && Accounted(c, n)
    ensures Accounted(c', n)
  {
    HandOnFrame(c, c', a, b);
    if !AtRest(c, n) {
      var x: nat :| Open(c, x) && Charged(c, x, n);
      if x != a {
        assert Open(c', x) && Charged(c', x, n);
      } else {
        assert Own(c, a, c.rows[a].newIpId);
        assert Open(c', b) && Charged(c', b, n);
      }
    }
  }

  lemma HandOnConserved(c: Chain, c': Chain, a: nat, b: nat)
    requires Conserved(c) && HandsOn(c, c', a, b)
    ensures Conserved(c')
  {
    hide Struct, PublisherOk, Carries, Rests, GoneOk, Accounted, HandsOn, Current, Open, Kept, AtRest;
    HandOnStruct(c, c', a, b);
    HandOnFrame(c, c', a, b);
    forall n | n in c'.past.made ensures Accounted(c', n) {
      HandOnAccounted(c, c', a, b, n);
    }
    HandOnRest(c, c');
  }

  /** Nothing else looks at the action of a row. */
  lemma HandOnRest(c: Chain, c': Chain)
    requires PublisherOk(c) && Carries(c) && Rests(c) && GoneOk(c)
    requires c'.rows.Keys == c.rows.Keys && c' == c.(rows := c'.rows)
    requires forall x | x in c.rows :: c'.rows[x].(action := c.rows[x].action) == c.rows[x]
    requires Kept(c') == Kept(c) && (forall n :: AtRest(c', n) == AtRest(c, n))
    requires forall x: nat :: Current(c', x) == Current(c, x)
    ensures PublisherOk(c') && Carries(c') && Rests(c') && GoneOk(c')
  {
    hide Kept, AtRest, Carries, Rests;
    CarriesLike(c, c');
    RestsLike(c, c');
  }

  lemma CarriesLike(c: Chain, c': Chain)
    requires Carries(c) && c'.rows.Keys == c.rows.Keys && c' == c.(rows := c'.rows) && Kept(c') == Kept(c)
    requires forall x | x in c.rows :: c'.rows[x].ctx == c.rows[x].ctx
    requires forall x: nat :: Current(c', x) == Current(c, x)
    ensures Carries(c')
  {
    hide Kept;
    forall x: nat | Current(c', x) && c'.rows[x].ctx.marker != "" ensures CarriesAll(c', c'.rows[x].ctx.retained) {
      assert CarriesAll(c, c.rows[x].ctx.retained);
    }
    forall x: nat | Current(c', x) && x in c'.creators && c'.creators[x].pc.Collected?
      ensures CarriesAll(c', c'.creators[x].pc.kept)
    {
      assert CarriesAll(c, c.creators[x].pc.kept);
    }
  }

  lemma RestsLike(c: Chain, c': Chain)
    requires Rests(c) && c'.rows.Keys == c.rows.Keys && c' == c.(rows := c'.rows)
    requires forall x | x in c.rows :: c'.rows[x].ctx == c.rows[x].ctx && c'.rows[x].published == c.rows[x].published
                                       && c'.rows[x].newIpId == c.rows[x].newIpId
    requires forall n :: AtRest(c', n) == AtRest(c, n)
    ensures Rests(c')
  {
    hide AtRest;
  }

  /* ---------- collecting and saving a set ---------- */

  /** retained_boxes finds the set of the operation that published the box, and adds the box. */
  lemma RetainedIsPublished(c: Chain, name: string, ip: string)
    requires Struct(c)
    ensures var latest := LatestPublished(c.rows, c.nextId, name, ip);
            latest.Some? && name != "" ==> latest.value in c.rows && c.rows[latest.value].published.Some?
                                           && Own(c, latest.value, name)
  {
  }

  lemma RetainedIsKept(c: Chain)
    requires Struct(c) && PublisherOk(c) && c.box != ""
    ensures RetainedBoxes(c.rows, c.nextId, c.box, c.ip) == Kept(c)[c.box := c.ip]
  {
    var latest := LatestPublished(c.rows, c.nextId, c.box, c.ip);
    if latest.Some? {
      assert Own(c, latest.value, c.rows[latest.value].newIpId);
      assert c.past.publisher.Some? && Own(c, c.past.publisher.value, c.rows[c.past.publisher.value].newIpId);
    }
  }

  lemma CollectionIsOlder(c: Chain, id: nat)
    requires Struct(c) && Rotates(c, id)
    ensures AllBefore(c, id, Collection(c, c.creators[id]))
  {
    var k := c.creators[id];
    if k.box != "" {
      RetainedIsPublished(c, k.box, k.ip);
      var latest := LatestPublished(c.rows, c.nextId, k.box, k.ip);
      if latest.Some? {
        assert AllBefore(c, latest.value, c.rows[latest.value].ctx.retained);
      }
    }
  }

  lemma CollectionRests(c: Chain, id: nat)
    requires Struct(c) && Rests(c) && Rotates(c, id)
    ensures AllAtRest(c, Collection(c, c.creators[id]))
  {
    var k := c.creators[id];
    if k.box != "" {
      RetainedIsPublished(c, k.box, k.ip);
      var latest := LatestPublished(c.rows, c.nextId, k.box, k.ip);
      if latest.Some? {
        assert AllAtRest(c, c.rows[latest.value].ctx.retained);
      }
    }
  }

  lemma CollectionCarries(c: Chain, id: nat)
    requires Struct(c) && PublisherOk(c) && Rotates(c, id) && Current(c, id)
    ensures CarriesAll(c, Collection(c, c.creators[id]))
    ensures Collection(c, c.creators[id]).Keys == Kept(c).Keys + (if c.box != "" then {c.box} else {})
  {
    if c.box != "" {
      RetainedIsKept(c);
    }
  }

  lemma ActiveBoxIsNotGone(c: Chain)
    requires Struct(c) && PublisherOk(c) && GoneOk(c)
    ensures c.box !in c.past.gone && c.box !in Kept(c)
  {
    if c.past.publisher.Some? {
      var p := c.past.publisher.value;
      assert Own(c, p, c.rows[p].newIpId) && AllBefore(c, p, c.rows[p].ctx.retained);
    }
  }

  /** A program collects a set that fits its operation, or saves the one it collected. */
  ghost predicate SetFits(c: Chain, id: nat, kept: map<string, string>) {
    && id in c.rows && AllBefore(c, id, kept) && c.rows[id].ctx.retained.Keys <= kept.Keys
    && (Current(c, id) ==> CarriesAll(c, kept) && (!c.past.overlapped ==> NoneGone(c, kept)))
    && (id !in c.past.follows ==> AllAtRest(c, kept))
  }

  lemma CollectedFits(c: Chain, id: nat)
    requires Conserved(c) && Rotates(c, id) && c.rows[id].published.None?
    ensures SetFits(c, id, c.rows[id].ctx.retained + Collection(c, c.creators[id]))
  {
    CollectionIsOlder(c, id);
    CollectionRests(c, id);
    ActiveBoxIsNotGone(c);
    StructRetains(c, id);
    if Current(c, id) {
      CollectionCarries(c, id);
    }
    var own, more := c.rows[id].ctx.retained, Collection(c, c.creators[id]);
    assert id !in c.past.follows ==> AllAtRest(c, own);
    assert Current(c, id) && !c.past.overlapped ==> NoneGone(c, own) && NoneGone(c, Kept(c));
    hide Struct, PublisherOk, Account, GoneOk, Collection, Current, AtRest, Kept;
    SetsJoin(c, id, own, more);
  }

  lemma SetsJoin(c: Chain, id: nat, own: map<string, string>, more: map<string, string>)
    requires AllBefore(c, id, own) && AllBefore(c, id, more)
    ensures AllBefore(c, id, own + more)
    ensures AllAtRest(c, own) && AllAtRest(c, more) ==> AllAtRest(c, own + more)
    ensures CarriesAll(c, more) ==> CarriesAll(c, own + more)
    ensures NoneGone(c, own) && NoneGone(c, more) ==> NoneGone(c, own + more)
  {
    hide AtRest, Kept;
  }

  lemma StructRetains(c: Chain, id: nat)
    requires Struct(c)
    ensures id in c.rows ==> AllBefore(c, id, c.rows[id].ctx.retained)
  {
  }

  lemma CollectConserved(c: Chain, id: nat)
    requires Conserved(c) && Sound(c) && Rotates(c, id)
    ensures Conserved(AfterCollect(c, id))
  {
    OnlyProgram(c, id);
    CollectedFits(c, id);
    var c' := AfterCollect(c, id);
    if c' != c {
      var kept := c.rows[id].ctx.retained + Collection(c, c.creators[id]);
      assert c' == c.(creators := c.creators[id := c.creators[id].(pc := Collected(kept))]) by {
        assert c.rows[id := c.rows[id]] == c.rows;
      }
      hide Conserved, Sound, Collection, SetFits;
      CollectedConserved(c, id, kept);
    }
  }

  lemma CollectedConserved(c: Chain, id: nat, kept: map<string, string>)
    requires Conserved(c) && Rotates(c, id) && c.creators[id].pc.Checking? && SetFits(c, id, kept)
    ensures Conserved(c.(creators := c.creators[id := c.creators[id].(pc := Collected(kept))]))
  {
    var c' := c.(creators := c.creators[id := c.creators[id].(pc := Collected(kept))]);
    CollectedPublisher(c, c', id, kept);
    assert AllBefore(c, id, kept);
    hide Struct, Account, GoneOk, PublisherOk, SetFits, AllBefore;
    CollectedStruct(c, c', id, kept);
    CollectedAccount(c, c', id, kept);
    CollectedGone(c, c', id, kept);
  }

  lemma CollectedStruct(c: Chain, c': Chain, id: nat, kept: map<string, string>)
    requires Struct(c) && Rotates(c, id) && AllBefore(c, id, kept)
    requires c' == c.(creators := c.creators[id := c.creators[id].(pc := Collected(kept))])
    ensures Struct(c')
  {
    assert SetsOut(c, id, c.creators[id]);
    StructFrom(c, c');
  }

  lemma CollectedPublisher(c: Chain, c': Chain, id: nat, kept: map<string, string>)
    requires PublisherOk(c) && Rotates(c, id)
    requires c' == c.(creators := c.creators[id := c.creators[id].(pc := Collected(kept))])
    ensures PublisherOk(c')
  {
    assert forall x: nat :: Current(c', x) == Current(c, x);
  }

  lemma CollectedAccount(c: Chain, c': Chain, id: nat, kept: map<string, string>)
    requires Account(c) && Rotates(c, id) && SetFits(c, id, kept)
    requires c' == c.(creators := c.creators[id := c.creators[id].(pc := Collected(kept))])
    ensures Account(c')
  {
    assert Kept(c') == Kept(c) && forall n :: AtRest(c', n) == AtRest(c, n);
    assert forall x: nat :: Current(c', x) == Current(c, x) && Open(c', x) == Open(c, x);
    hide Kept, AtRest, Open;
    forall n | n in c'.past.made ensures Accounted(c', n) {
      assert Accounted(c, n);
      if !AtRest(c, n) {
        var x: nat :| Open(c, x) && Charged(c, x, n);
        assert Open(c', x) && Charged(c', x, n);
      }
    }
    forall x: nat | Current(c', x) && c'.rows[x].ctx.marker != "" ensures CarriesAll(c', c'.rows[x].ctx.retained) {
      assert CarriesAll(c, c.rows[x].ctx.retained);
    }
    forall x: nat | Current(c', x) && x in c'.creators && c'.creators[x].pc.Collected?
      ensures CarriesAll(c', c'.creators[x].pc.kept)
    {
      assert x != id ==> CarriesAll(c, c.creators[x].pc.kept);
    }
  }

  lemma CollectedGone(c: Chain, c': Chain, id: nat, kept: map<string, string>)
    requires GoneOk(c) && Rotates(c, id) && SetFits(c, id, kept)
    requires c' == c.(creators := c.creators[id := c.creators[id].(pc := Collected(kept))])
    ensures GoneOk(c')
  {
    assert Kept(c') == Kept(c) && forall x: nat :: Current(c', x) == Current(c, x);
    hide Kept;
  }

  /** The collected set goes into the row. */
  ghost predicate Saves(c: Chain, c': Chain, id: nat, ctx: Context) {
    && Rotates(c, id) && c.creators[id].pc == Collected(ctx.retained) && ctx.marker != ""
    && c' == Tell(c, id, c.rows[id].(ctx := ctx), Some(c.creators[id].(pc := CreatorPc.Saved)))
  }

  lemma SaveFrame(c: Chain, c': Chain, id: nat, ctx: Context)
    requires PublisherOk(c) && Saves(c, c', id, ctx) && c.rows[id].published.None?
    ensures Kept(c') == Kept(c) && forall n :: AtRest(c', n) == AtRest(c, n)
    ensures forall x: nat :: Current(c', x) == Current(c, x) && Open(c', x) == Open(c, x)
    ensures forall x | x in c.rows && x != id :: c'.rows[x] == c.rows[x]
    ensures c'.rows.Keys == c.rows.Keys && c'.rows[id].ctx == ctx && c'.rows[id].(ctx := c.rows[id].ctx) == c.rows[id]
    ensures c'.past == c.past && c'.box == c.box && c'.ip == c.ip && c'.nextId == c.nextId
    ensures Rotates(c, id) && c.creators[id].pc == Collected(ctx.retained)
            && c'.creators == c.creators[id := c.creators[id].(pc := CreatorPc.Saved)]
  {
  }

  lemma SaveConserved(c: Chain, c': Chain, id: nat, ctx: Context)
    requires Conserved(c) && Saves(c, c', id, ctx) && c.rows[id].published.None?
    ensures Conserved(c')
  {
    hide Struct, PublisherOk, Account, GoneOk, Saves;
    SaveFrame(c, c', id, ctx);
    SaveStruct(c, c', id, ctx);
    SaveAccount(c, c', id, ctx);
    SaveRest(c, c', id, ctx);
  }

  lemma SaveStruct(c: Chain, c': Chain, id: nat, ctx: Context)
    requires Struct(c) && PublisherOk(c) && Saves(c, c', id, ctx) && c.rows[id].published.None?
    ensures Struct(c')
  {
    hide PublisherOk, Kept, AtRest, Open, Current, Saves;
    SaveFrame(c, c', id, ctx);
    assert SetsOut(c, id, c.creators[id]);
    StructFrom(c, c');
  }

  lemma SaveAccount(c: Chain, c': Chain, id: nat, ctx: Context)
    requires PublisherOk(c) && Account(c) && Saves(c, c', id, ctx) && c.rows[id].published.None?
    ensures Account(c')
  {
    SaveFrame(c, c', id, ctx);
    SaveCarries(c, c', id, ctx);
    SaveRests(c, c', id, ctx);
    assert c.rows[id].ctx.retained.Keys <= ctx.retained.Keys;
    hide PublisherOk, Carries, Rests, Kept, AtRest, Open, Current, Saves;
    forall n | n in c'.past.made ensures Accounted(c', n) {
      assert Accounted(c, n);
      if !AtRest(c, n) {
        var x: nat :| Open(c, x) && Charged(c, x, n);
        assert Open(c', x) && Charged(c', x, n);
      }
    }
  }

  lemma SaveCarries(c: Chain, c': Chain, id: nat, ctx: Context)
    requires PublisherOk(c) && Carries(c) && Saves(c, c', id, ctx) && c.rows[id].published.None?
    ensures Carries(c')
  {
    hide PublisherOk, Kept, AtRest, Open;
    SaveFrame(c, c', id, ctx);
    assert Current(c, id) ==> CarriesAll(c, ctx.retained);
    forall x: nat | Current(c', x) && c'.rows[x].ctx.marker != "" ensures CarriesAll(c', c'.rows[x].ctx.retained) {
      assert x != id ==> CarriesAll(c, c.rows[x].ctx.retained);
    }
    forall x: nat | Current(c', x) && x in c'.creators && c'.creators[x].pc.Collected?
      ensures CarriesAll(c', c'.creators[x].pc.kept)
    {
      assert CarriesAll(c, c.creators[x].pc.kept);
    }
  }

  lemma SaveRests(c: Chain, c': Chain, id: nat, ctx: Context)
    requires PublisherOk(c) && Rests(c) && Saves(c, c', id, ctx) && c.rows[id].published.None?
    ensures Rests(c')
  {
    hide PublisherOk, Kept, AtRest, Open, Current, Saves;
    SaveFrame(c, c', id, ctx);
    assert id !in c.past.follows ==> AllAtRest(c, ctx.retained);
  }

  lemma SaveRest(c: Chain, c': Chain, id: nat, ctx: Context)
    requires PublisherOk(c) && GoneOk(c) && Saves(c, c', id, ctx) && c.rows[id].published.None?
    ensures PublisherOk(c') && GoneOk(c')
  {
    SaveFrame(c, c', id, ctx);
    hide Kept, AtRest, Open;
  }

  /* ---------- buying ---------- */

  /** An order takes effect: a new box, of the operation that ordered it. */
  ghost predicate Buys(c: Chain, c': Chain, id: nat, name: string) {
    && Rotates(c, id) && c.creators[id].pc.Ordering? && name !in c.past.made && name != ""
    && c'.rows == c.rows && id in c'.creators && c'.creators == c.creators[id := c'.creators[id]]
    && c'.creators[id].box == c.creators[id].box && c'.creators[id].ip == c.creators[id].ip
    && (c'.creators[id].pc.Answered? || c'.creators[id].pc.Lost?)
    && c'.nextId == c.nextId && c'.desired == c.desired && c'.box == c.box && c'.ip == c.ip
    && c'.past == c.past.(orders := c'.past.orders, made := c.past.made[name := id])
  }

  lemma OrderBuys(c: Chain, id: nat, name: string, reply: Reply)
    requires Rotates(c, id) && c.creators[id].pc.Ordering? && name !in c.past.made && name != "" && !reply.Refusal?
    ensures Buys(c, AfterOrder(c, id, Some(name), reply), id, name)
  {
    assert c.rows[id := c.rows[id]] == c.rows;
  }

  lemma BuyFrame(c: Chain, c': Chain, id: nat, name: string)
    requires Buys(c, c', id, name)
    ensures Kept(c') == Kept(c) && forall n :: AtRest(c', n) == AtRest(c, n)
    ensures forall x: nat :: Current(c', x) == Current(c, x) && Open(c', x) == Open(c, x)
    ensures forall x: nat, n | Charged(c, x, n) && n in c.past.made :: Charged(c', x, n)
  {
  }

  lemma BuyStruct(c: Chain, c': Chain, id: nat, name: string)
    requires Struct(c) && Buys(c, c', id, name) && c.rows[id].purchase == P_SENDING
    ensures Struct(c')
  {
    hide Ordered, AllBefore, SetsOut;
    BuyOrdered(c, c', id, name);
    BuySets(c, c', id, name);
    BuysFirst(c, c', id, name);
  }

  /** An operation that is about to order has no box. */
  lemma BuysFirst(c: Chain, c': Chain, id: nat, name: string)
    requires Struct(c) && Buys(c, c', id, name)
    ensures forall n | n in c.past.made :: c.past.made[n] != id
  {
    forall n | n in c.past.made ensures c.past.made[n] != id {
      assert c.past.made[n] == BEFORE || Ordered(c, c.past.made[n]);
    }
    hide Struct;
  }

  lemma BuyOrdered(c: Chain, c': Chain, id: nat, name: string)
    requires Struct(c) && Buys(c, c', id, name) && c.rows[id].purchase == P_SENDING
    ensures forall n | n in c'.past.made :: n != "" && (c'.past.made[n] == BEFORE || Ordered(c', c'.past.made[n]))
  {
    forall n | n in c'.past.made ensures n != "" && (c'.past.made[n] == BEFORE || Ordered(c', c'.past.made[n])) {
      if n != name && c.past.made[n] != BEFORE {
        assert Ordered(c, c.past.made[n]);
      }
    }
  }

  lemma BuySets(c: Chain, c': Chain, id: nat, name: string)
    requires Struct(c) && Buys(c, c', id, name)
    ensures forall x | x in c'.rows :: AllBefore(c', x, c'.rows[x].ctx.retained)
    ensures forall x | x in c'.creators :: SetsOut(c', x, c'.creators[x])
  {
    forall x | x in c'.rows ensures AllBefore(c', x, c'.rows[x].ctx.retained) {
      assert AllBefore(c, x, c.rows[x].ctx.retained);
    }
    forall x | x in c'.creators ensures SetsOut(c', x, c'.creators[x]) {
      assert SetsOut(c, x, c.creators[x]);
      assert c.creators[x].pc.Collected? ==> AllBefore(c, x, c.creators[x].pc.kept);
    }
  }

  lemma BuyAccount(c: Chain, c': Chain, id: nat, name: string)
    requires Struct(c) && Account(c) && Buys(c, c', id, name) && Open(c, id)
    ensures Account(c')
  {
    hide Kept, AtRest, Open, Current, Carries, Rests, Struct;
    BuyFrame(c, c', id, name);
    BuyCarries(c, c', id, name);
    BuyRests(c, c', id, name);
    forall n | n in c'.past.made ensures Accounted(c', n) {
      if n == name {
        assert Charged(c', id, n);
      } else {
        assert Accounted(c, n);
        if !AtRest(c, n) {
          var x: nat :| Open(c, x) && Charged(c, x, n);
          assert Open(c', x) && Charged(c', x, n);
        }
      }
    }
  }

  lemma BuyCarries(c: Chain, c': Chain, id: nat, name: string)
    requires Carries(c) && Buys(c, c', id, name)
    ensures Carries(c')
  {
    hide Kept, AtRest, Open, Charged;
    BuyFrame(c, c', id, name);
    forall x: nat | Current(c', x) && c'.rows[x].ctx.marker != "" ensures CarriesAll(c', c'.rows[x].ctx.retained) {
      assert CarriesAll(c, c.rows[x].ctx.retained);
    }
    forall x: nat | Current(c', x) && x in c'.creators && c'.creators[x].pc.Collected?
      ensures CarriesAll(c', c'.creators[x].pc.kept)
    {
      assert CarriesAll(c, c.creators[x].pc.kept);
    }
  }

  lemma BuyRests(c: Chain, c': Chain, id: nat, name: string)
    requires Rests(c) && Buys(c, c', id, name)
    ensures Rests(c')
  {
    hide AtRest, Kept, Current, Open, Charged;
    BuyFrame(c, c', id, name);
  }

  lemma BuyRest(c: Chain, c': Chain, id: nat, name: string)
    requires PublisherOk(c) && GoneOk(c) && Buys(c, c', id, name)
    ensures PublisherOk(c') && GoneOk(c')
  {
    BuyFrame(c, c', id, name);
    hide AtRest, Kept, Open, Charged;
  }

  lemma BuyConserved(c: Chain, c': Chain, id: nat, name: string)
    requires Conserved(c) && Sound(c) && Buys(c, c', id, name)
    ensures Conserved(c')
  {
    OnlyProgram(c, id);
    OrderingIsOpen(c, id);
    hide Sound, Struct, PublisherOk, Account, GoneOk, Open, Buys, RowOk;
    BuyStruct(c, c', id, name);
    BuyAccount(c, c', id, name);
    BuyRest(c, c', id, name);
  }

  lemma OrderingIsOpen(c: Chain, id: nat)
    requires Rotates(c, id) && RowOk(c.desired, c.rows[id]) && CreatorOk(c.rows[id], c.creators[id])
    requires c.creators[id].pc.Ordering?
    ensures Open(c, id) && c.rows[id].purchase == P_SENDING
  {
  }
}
