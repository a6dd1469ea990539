/** No box of a SprintBOX chain is forgotten, whatever program stalls, is taken over and wakes up again. */
module SprintConservation {
  import opened Tables
  import opened OperationRows
  import opened SprintChain
  import opened SprintPrograms

  /* ---------- structure ---------- */

  predicate Own(c: Chain, id: nat, n: string) {
    n in c.past.made && c.past.made[n] == id
  }

  predicate Bought(c: Chain, id: nat) {
    exists n | n in c.past.made :: c.past.made[n] == id
  }

  /** An order that has not been sent, or was refused. */
  predicate Unordered(c: Chain, id: nat) {
    id in c.creators && (c.creators[id].pc.Ordering? || c.creators[id].pc.Refused?)
  }

  /** The order of the operation was sent and not refused. */
  predicate Ordered(c: Chain, id: nat) {
    id in c.rows && c.rows[id].purchase !in {P_NOT_STARTED, P_REJECTED} && !Unordered(c, id)
  }

  /** Boxes ordered before this operation. */
  ghost predicate AllBefore(c: Chain, id: nat, names: map<string, string>) {
    forall n | n in names :: n in c.past.made && c.past.made[n] < id
  }

  /** A program knows boxes older than its operation. */
  ghost predicate SetsOut(c: Chain, id: nat, k: Creator) {
    && (k.box != "" ==> k.box in c.past.made && c.past.made[k.box] < id)
    && (k.pc.Collected? ==> AllBefore(c, id, k.pc.kept))
  }

  /** Every box has one operation that ordered it, every operation at most one box, and sets list older boxes. */
  ghost predicate Struct(c: Chain) {
    && BEFORE !in c.rows && 0 < c.nextId && (forall id | id in c.rows :: id < c.nextId)
    && (forall n | n in c.past.made :: n != "" && (c.past.made[n] == BEFORE || Ordered(c, c.past.made[n])))
    && (forall n, m | n in c.past.made && m in c.past.made && c.past.made[n] == c.past.made[m] :: n == m)
    && (forall id | id in c.rows && c.rows[id].newIpId != "" :: Own(c, id, c.rows[id].newIpId))
    && (forall id | id in c.rows :: AllBefore(c, id, c.rows[id].ctx.retained))
    && (forall id | id in c.creators :: SetsOut(c, id, c.creators[id]))
    && (c.box != "" ==> c.box in c.past.made)
  }

  /** What a step that buys nothing has to keep. */
  lemma StructFrom(c: Chain, c': Chain)
    requires Struct(c) && c'.past.made == c.past.made && c.nextId <= c'.nextId && (c'.box != "" ==> c'.box in c.past.made)
    requires BEFORE !in c'.rows && forall id | id in c'.rows :: id < c'.nextId && AllBefore(c, id, c'.rows[id].ctx.retained)
    requires forall n | n in c.past.made && Ordered(c, c.past.made[n]) :: Ordered(c', c.past.made[n])
    requires forall id | id in c'.rows && c'.rows[id].newIpId != "" :: Own(c, id, c'.rows[id].newIpId)
    requires forall id | id in c'.creators :: SetsOut(c, id, c'.creators[id])
    ensures Struct(c')
  {
    hide Ordered;
    forall id | id in c'.rows ensures AllBefore(c', id, c'.rows[id].ctx.retained) {
      assert AllBefore(c, id, c'.rows[id].ctx.retained);
    }
    forall id | id in c'.creators ensures SetsOut(c', id, c'.creators[id]) {
      assert SetsOut(c, id, c'.creators[id]);
    }
  }

  /** The publisher is the newest published operation; what could still be published is newer, and started from the
      active box. */
  ghost predicate PublisherOk(c: Chain) {
    && (if c.past.publisher.None? then c.box != "" ==> c.box in c.past.made && c.past.made[c.box] == BEFORE
        else c.past.publisher.value in c.rows && Matches(c.rows[c.past.publisher.value], c.box, c.ip) && c.box != "")
    && (forall id | id in c.rows && c.rows[id].published.Some? :: c.past.publisher.Some? && id <= c.past.publisher.value)
    && (forall id: nat | Current(c, id) && c.past.publisher.Some? :: c.past.publisher.value < id)
    && (forall id: nat | id in c.creators && Current(c, id) :: c.creators[id].box == c.box && c.creators[id].ip == c.ip)
  }

  /* ---------- accounting ---------- */

  /** An unreachable attempt whose boxes a retry has taken over. */
  predicate HandedOn(row: IpOp) {
    row.published.None? && row.status == DONE && row.action == RETRY_REQUESTED
  }

  /** An attempt that has not been settled: neither published, nor handed on, nor failed before it bought or inherited
      anything. */
  predicate Open(c: Chain, id: nat) {
    && id in c.rows && c.rows[id].published.None? && !HandedOn(c.rows[id])
    && (c.rows[id].status == FAILURE ==> id in c.past.follows)
  }

  /** It is under way, waits for a decision, or was given up: ambiguous, cancelled, or an SSH retry that failed. */
  lemma OpenMeans(c: Chain, id: nat)
    requires RowsOk(c) && Open(c, id)
    ensures var row := c.rows[id];
            || row.status.Active() || Undecided(row) || row.status == AMBIGUOUS
            || (row.status == DONE && row.action == CANCELLED) || (row.status == FAILURE && id in c.past.follows)
  {
    assert Columns(c.rows[id]);
  }

  predicate Charged(c: Chain, id: nat, n: string) {
    (id in c.rows && n in c.rows[id].ctx.retained) || Own(c, id, n)
  }

  /** Where a box can be without anybody answering for it. */
  predicate AtRest(c: Chain, n: string) {
    (n == c.box && n != "") || n in c.past.gone || n in Kept(c)
  }

  ghost predicate Accounted(c: Chain, n: string) {
    AtRest(c, n) || exists id: nat :: Open(c, id) && Charged(c, id, n)
  }

  ghost predicate AllAtRest(c: Chain, names: map<string, string>) {
    forall n | n in names :: AtRest(c, n)
  }

  /** The set carries everything the active publication stands for. */
  ghost predicate CarriesAll(c: Chain, names: map<string, string>) {
    forall n | n in Kept(c) || (n == c.box && n != "") :: n in names || n in c.past.gone
  }

  ghost predicate Carries(c: Chain) {
    && (forall id: nat | Current(c, id) && c.rows[id].ctx.marker != "" :: CarriesAll(c, c.rows[id].ctx.retained))
    && (forall id: nat | Current(c, id) && id in c.creators && c.creators[id].pc.Collected? ::
          CarriesAll(c, c.creators[id].pc.kept))
  }

  /** What a set lists is at rest, unless it was inherited from an unreachable attempt and not published yet. */
  ghost predicate RowRests(c: Chain, id: nat, row: IpOp) {
    && (row.published.Some? || id !in c.past.follows ==> AllAtRest(c, row.ctx.retained))
    && (row.published.Some? ==> AtRest(c, row.newIpId))
  }

  ghost predicate CreatorRests(c: Chain, id: nat, k: Creator) {
    && (k.box != "" ==> AtRest(c, k.box))
    && (k.pc.Collected? && id !in c.past.follows ==> AllAtRest(c, k.pc.kept))
    && (k.pc.Collected? && id in c.rows ==> c.rows[id].ctx.retained.Keys <= k.pc.kept.Keys)
  }

  ghost predicate Rests(c: Chain) {
    && (forall id | id in c.rows :: RowRests(c, id, c.rows[id]))
    && (forall id | id in c.creators :: CreatorRests(c, id, c.creators[id]))
    && c.past.follows.Keys <= c.rows.Keys
  }

  ghost predicate Account(c: Chain) {
    (forall n | n in c.past.made :: Accounted(c, n)) && Carries(c) && Rests(c)
  }

  /* ---------- gone boxes ---------- */

  ghost predicate NoneGone(c: Chain, names: map<string, string>) {
    forall n | n in names :: n !in c.past.gone
  }

  /** Boxes that are gone are older than the active one; and unless a cleanup removed a box that something else still
      counted on, nothing that counts still lists one. */
  ghost predicate GoneOk(c: Chain) {
    && (forall n | n in c.past.gone :: n in c.past.made && c.past.publisher.Some? && c.past.made[n] < c.past.publisher.value)
    && (!c.past.overlapped ==>
          && NoneGone(c, Kept(c))
          && (forall id: nat | Current(c, id) :: NoneGone(c, c.rows[id].ctx.retained))
          && (forall id: nat | Current(c, id) && id in c.creators && c.creators[id].pc.Collected? ::
                NoneGone(c, c.creators[id].pc.kept)))
  }

  ghost predicate Conserved(c: Chain) {
    Struct(c) && PublisherOk(c) && Account(c) && GoneOk(c)
  }

  /* ---------- mild steps ---------- */

  predicate MildRow(c: Chain, id: nat, row: IpOp, row': IpOp) {
    && row'.revision == row.revision && row'.published == row.published
    && row'.ctx.retained == row.ctx.retained && row'.ctx.marker == row.ctx.marker
    && (row.published.Some? ==> row'.newIpId == row.newIpId && row'.newIp == row.newIp)
    && (row'.newIpId == row.newIpId || Own(c, id, row'.newIpId))
    && (HandedOn(row') ==> HandedOn(row))
    && (row'.purchase in {P_NOT_STARTED, P_REJECTED} ==> row'.purchase == row.purchase || !Bought(c, id))
    && (row'.status == FAILURE ==> row'.purchase in {P_NOT_STARTED, P_REJECTED})
  }

  predicate MildCreator(c: Chain, id: nat, k': Creator) {
    && id in c.creators
    && var k := c.creators[id];
    && k'.box == k.box && k'.ip == k.ip && (k'.pc.Collected? ==> k'.pc == k.pc)
    && (k'.pc.Ordering? || k'.pc.Refused? ==> k'.pc == k.pc || !Bought(c, id))
  }

  /** Most steps move no box: they write rows and programs, and leave sets, publication and provider as they are. */
  ghost predicate Mild(c: Chain, c': Chain) {
    && c'.nextId == c.nextId && c'.desired == c.desired && c'.box == c.box && c'.ip == c.ip
    && c'.past.publisher == c.past.publisher && c'.past.made == c.past.made && c'.past.gone == c.past.gone
    && c'.past.follows == c.past.follows && c'.past.overlapped == c.past.overlapped
    && c'.rows.Keys == c.rows.Keys && (forall id | id in c.rows :: MildRow(c, id, c.rows[id], c'.rows[id]))
    && (forall id | id in c'.creators :: MildCreator(c, id, c'.creators[id]))
  }

  lemma MildStruct(c: Chain, c': Chain)
    requires Struct(c) && Mild(c, c')
    ensures Struct(c')
  {
    forall n | n in c.past.made && Ordered(c, c.past.made[n]) ensures Ordered(c', c.past.made[n]) {
      var id := c.past.made[n];
      assert Bought(c, id) && MildRow(c, id, c.rows[id], c'.rows[id]);
      assert id in c'.creators ==> MildCreator(c, id, c'.creators[id]);
    }
    forall id | id in c'.creators ensures SetsOut(c, id, c'.creators[id]) {
      assert MildCreator(c, id, c'.creators[id]) && SetsOut(c, id, c.creators[id]);
    }
    hide Bought;
    StructFrom(c, c');
  }

  lemma MildPublisher(c: Chain, c': Chain)
    requires PublisherOk(c) && Mild(c, c')
    ensures PublisherOk(c')
  {
    forall id: nat | Current(c', id) ensures Current(c, id) {
    }
  }

  lemma MildRests(c: Chain, c': Chain)
    requires Mild(c, c')
    ensures Kept(c') == Kept(c) && forall n :: AtRest(c', n) == AtRest(c, n)
    ensures forall id: nat :: Current(c', id) == Current(c, id)
  {
  }

  lemma MildOpen(c: Chain, c': Chain, id: nat)
    requires Struct(c) && Rests(c) && Mild(c, c') && Open(c, id) && !Open(c', id)
    ensures !Bought(c, id) && id in c.rows && AllAtRest(c, c.rows[id].ctx.retained)
  {
    assert RowRests(c, id, c.rows[id]);
    if n :| n in c.past.made && c.past.made[n] == id {
      assert Ordered(c, id);
    }
  }

  lemma MildAccounted(c: Chain, c': Chain, n: string)
    requires Struct(c) && Rests(c) && Mild(c, c') && n in c.past.made && Accounted(c, n)
    ensures Accounted(c', n)
  {
    MildRests(c, c');
    hide Struct, Rests, Kept;
    if !AtRest(c, n) {
      var id: nat :| Open(c, id) && Charged(c, id, n);
      if Open(c', id) {
        assert Charged(c', id, n);
      } else {
        MildOpen(c, c', id);
      }
    }
  }

  lemma MildAccount(c: Chain, c': Chain)
    requires Struct(c) && Account(c) && Mild(c, c')
    ensures Account(c')
  {
    forall n | n in c'.past.made ensures Accounted(c', n) {
      MildAccounted(c, c', n);
    }
    MildCarries(c, c');
    MildResting(c, c');
    hide Struct, Mild, Carries, Rests, Accounted;
  }

  lemma MildCarries(c: Chain, c': Chain)
    requires Carries(c) && Mild(c, c')
    ensures Carries(c')
  {
    MildRests(c, c');
    hide Kept, AtRest;
    forall id: nat | Current(c', id) && c'.rows[id].ctx.marker != "" ensures CarriesAll(c', c'.rows[id].ctx.retained) {
      assert CarriesAll(c, c.rows[id].ctx.retained);
    }
    forall id: nat | Current(c', id) && id in c'.creators && c'.creators[id].pc.Collected?
      ensures CarriesAll(c', c'.creators[id].pc.kept)
    {
      assert MildCreator(c, id, c'.creators[id]);
      assert CarriesAll(c, c.creators[id].pc.kept);
    }
  }

  lemma MildResting(c: Chain, c': Chain)
    requires Rests(c) && Mild(c, c')
    ensures Rests(c')
  {
    MildRests(c, c');
    hide Kept, AtRest;
    forall id | id in c'.rows ensures RowRests(c', id, c'.rows[id]) {
      assert RowRests(c, id, c.rows[id]) && MildRow(c, id, c.rows[id], c'.rows[id]);
    }
    forall id | id in c'.creators ensures CreatorRests(c', id, c'.creators[id]) {
      assert MildCreator(c, id, c'.creators[id]) && CreatorRests(c, id, c.creators[id]);
    }
  }

  lemma MildGone(c: Chain, c': Chain)
    requires GoneOk(c) && Mild(c, c')
    ensures GoneOk(c')
  {
    MildRests(c, c');
    hide Kept, AtRest;
    forall id | id in c'.creators ensures MildCreator(c, id, c'.creators[id]) {
    }
  }

  lemma MildKeeps(c: Chain, c': Chain)
    requires Conserved(c) && Mild(c, c')
    ensures Conserved(c')
  {
    hide Struct, PublisherOk, Account, GoneOk, Mild;
    MildStruct(c, c');
    MildPublisher(c, c');
    MildAccount(c, c');
    MildGone(c, c');
  }
}
