/** Publishing a box, recording a deletion, and other configuration changes. */
module SprintPublishes {
  import opened Base
  import opened Tables
  import opened SprintChain
  import opened SprintPrograms
  import opened SprintConservation

  /* ---------- publishing ---------- */

  ghost predicate Publishes(c: Chain, c': Chain, id: nat) {
    && Current(c, id) && c.rows[id].newIpId != "" && c.rows[id].ctx.marker != ""
    && id in c'.rows && c'.rows == c.rows[id := c'.rows[id]] && c'.rows[id].published.Some?
    && c'.rows[id].(status := c.rows[id].status, action := c.rows[id].action, published := None,
                    publishedAt := c.rows[id].publishedAt) == c.rows[id]
    && c'.creators == c.creators && id !in c.creators && c'.nextId == c.nextId && c'.desired == c.desired + 1
    && c'.box == c.rows[id].newIpId && c'.ip == c.rows[id].newIp
    && c'.past == c.past.(publisher := Some(id))
    && (forall x | x in c.rows :: c.rows[x].revision <= c.desired)
  }

  lemma PublishPublishes(c: Chain, w: nat)
    requires Sound(c) && Provisions(c, w) && AfterPublish(c, w) != c
    ensures Publishes(c, AfterPublish(c, w), c.installers[w].id)
  {
    InstallerFits(c, w);
    assert forall x | x in c.rows :: RowOk(c.desired, c.rows[x]);
    hide Sound;
  }

  /** Nothing could be published next, and what was at rest still is. */
  lemma PublishFrame(c: Chain, c': Chain, id: nat)
    requires Conserved(c) && Publishes(c, c', id)
    ensures Kept(c') == c.rows[id].ctx.retained && forall x: nat :: !Current(c', x)
    ensures forall n | AtRest(c, n) :: AtRest(c', n)
    ensures forall x: nat | x != id && Open(c, x) :: Open(c', x)
    ensures c.past.publisher.Some? ==> c.past.publisher.value < id
  {
    hide Struct, GoneOk, Rests;
    assert CarriesAll(c, c.rows[id].ctx.retained);
  }

  lemma PublishStruct(c: Chain, c': Chain, id: nat)
    requires Struct(c) && Publishes(c, c', id)
    ensures Struct(c')
  {
    assert Own(c, id, c.rows[id].newIpId);
    hide Current;
    StructFrom(c, c');
  }

  lemma PublishPublisher(c: Chain, c': Chain, id: nat)
    requires Conserved(c) && Publishes(c, c', id)
    ensures PublisherOk(c')
  {
    hide Struct, Account, GoneOk, AtRest, Kept, Open, Current;
    PublishFrame(c, c', id);
  }

  lemma PublishAccounted(c: Chain, c': Chain, id: nat, n: string)
    requires Conserved(c) && Publishes(c, c', id) && n in c.past.made
    ensures Accounted(c', n)
  {
    PublishFrame(c, c', id);
    assert Accounted(c, n) && Own(c, id, c.rows[id].newIpId);
    if !AtRest(c, n) {
      var x: nat :| Open(c, x) && Charged(c, x, n);
      if x != id {
        assert Open(c', x) && Charged(c', x, n);
      } else if n !in c.rows[id].ctx.retained {
        assert n == c.rows[id].newIpId;
      }
    }
  }

  lemma PublishRests(c: Chain, c': Chain, id: nat)
    requires Conserved(c) && Publishes(c, c', id)
    ensures Rests(c')
  {
    hide Struct, PublisherOk, GoneOk, Carries, Accounted, Open;
    PublishFrame(c, c', id);
    forall x | x in c'.rows ensures RowRests(c', x, c'.rows[x]) {
      assert RowRests(c, x, c.rows[x]);
      if x == id {
        assert forall n | n in c.rows[id].ctx.retained :: AtRest(c', n);
      }
    }
    hide AtRest, Kept, Current;
    forall x | x in c'.creators ensures CreatorRests(c', x, c'.creators[x]) {
      assert CreatorRests(c, x, c.creators[x]);
    }
  }

  lemma PublishGone(c: Chain, c': Chain, id: nat)
    requires Conserved(c) && Publishes(c, c', id)
    ensures GoneOk(c')
  {
    hide Struct, PublisherOk, Account, AtRest, Kept;
    PublishFrame(c, c', id);
  }

  lemma PublishConserved(c: Chain, c': Chain, id: nat)
    requires Conserved(c) && Publishes(c, c', id)
    ensures Conserved(c')
  {
    hide Struct, PublisherOk, Account, GoneOk, Publishes;
    PublishStruct(c, c', id);
    PublishPublisher(c, c', id);
    PublishGone(c, c', id);
    PublishAccount(c, c', id);
  }

  lemma PublishAccount(c: Chain, c': Chain, id: nat)
    requires Conserved(c) && Publishes(c, c', id)
    ensures Account(c')
  {
    PublishFrame(c, c', id);
    assert c'.past.made == c.past.made;
    hide Conserved, Rests, Publishes, Accounted, Current, Kept, AtRest, Open;
    PublishRests(c, c', id);
    forall n | n in c'.past.made ensures Accounted(c', n) {
      PublishAccounted(c, c', id, n);
    }
  }

  /* ---------- recording a deletion ---------- */

  /** A box leaves the set of a published operation and is gone. */
  ghost predicate Removes(c: Chain, c': Chain, id: nat, name: string) {
    && id in c.rows && c.rows[id].published.Some? && name in c.rows[id].ctx.retained
    && id in c'.rows && c'.rows == c.rows[id := c'.rows[id]]
    && c'.rows[id].(ctx := c.rows[id].ctx) == c.rows[id]
    && c'.rows[id].ctx.retained == c.rows[id].ctx.retained - {name} && c'.rows[id].ctx.marker == c.rows[id].ctx.marker
    && c'.creators == c.creators && id !in c.creators && c'.nextId == c.nextId && c'.desired == c.desired
    && c'.box == c.box && c'.ip == c.ip
    && c'.past == c.past.(gone := c.past.gone + {name}, overlapped := c.past.overlapped || Carried(c, id, name))
  }

  lemma RecordRemoves(c: Chain, id: nat, name: string, result: Deletion)
    requires Sound(c) && CleansUp(c, id) && IsGone(result) && AfterRecord(c, id, name, result) != c
    ensures Removes(c, AfterRecord(c, id, name, result), id, name)
  {
    hide Sound, Carried, MayRecord;
    CleanerFits(c, id);
  }

  lemma RemoveFrame(c: Chain, c': Chain, id: nat, name: string)
    requires Removes(c, c', id, name)
    ensures Kept(c') == (if c.past.publisher == Some(id) then Kept(c) - {name} else Kept(c))
    ensures forall n | AtRest(c, n) :: AtRest(c', n)
    ensures forall x: nat :: Current(c', x) == Current(c, x) && Open(c', x) == Open(c, x)
    ensures forall x | x in c.rows && x != id :: c'.rows[x] == c.rows[x]
    ensures !Current(c, id) && !Open(c, id) && c'.past.gone == c.past.gone + {name} && c'.creators == c.creators
  {
  }

  lemma RemoveStruct(c: Chain, c': Chain, id: nat, name: string)
    requires Struct(c) && Removes(c, c', id, name)
    ensures Struct(c')
  {
    hide Carried;
    assert AllBefore(c, id, c.rows[id].ctx.retained);
    StructFrom(c, c');
  }

  lemma RemovePublisher(c: Chain, c': Chain, id: nat, name: string)
    requires PublisherOk(c) && Removes(c, c', id, name)
    ensures PublisherOk(c')
  {
    hide Carried, Kept, AtRest, Open;
    RemoveFrame(c, c', id, name);
  }

  lemma RemoveAccount(c: Chain, c': Chain, id: nat, name: string)
    requires Account(c) && Removes(c, c', id, name)
    ensures Account(c')
  {
    hide Carried, Kept, AtRest, Open, Current, Carries, Rests;
    RemoveFrame(c, c', id, name);
    RemoveCarries(c, c', id, name);
    RemoveRests(c, c', id, name);
    forall n | n in c'.past.made ensures Accounted(c', n) {
      assert Accounted(c, n);
      if !AtRest(c, n) {
        var x: nat :| Open(c, x) && Charged(c, x, n);
        assert Open(c', x) && Charged(c', x, n);
      }
    }
  }

  lemma RemoveCarries(c: Chain, c': Chain, id: nat, name: string)
    requires Carries(c) && Removes(c, c', id, name)
    ensures Carries(c')
  {
    hide Carried, Kept, AtRest, Open;
    RemoveFrame(c, c', id, name);
    forall x: nat | Current(c', x) && c'.rows[x].ctx.marker != "" ensures CarriesAll(c', c'.rows[x].ctx.retained) {
      assert CarriesAll(c, c.rows[x].ctx.retained);
    }
    forall x: nat | Current(c', x) && x in c'.creators && c'.creators[x].pc.Collected?
      ensures CarriesAll(c', c'.creators[x].pc.kept)
    {
      assert CarriesAll(c, c.creators[x].pc.kept);
    }
  }

  lemma RemoveRests(c: Chain, c': Chain, id: nat, name: string)
    requires Rests(c) && Removes(c, c', id, name)
    ensures Rests(c')
  {
    hide Carried, Kept, AtRest, Open, Current;
    RemoveFrame(c, c', id, name);
    forall x | x in c'.rows ensures RowRests(c', x, c'.rows[x]) {
      assert RowRests(c, x, c.rows[x]);
    }
    forall x | x in c'.creators ensures CreatorRests(c', x, c'.creators[x]) {
      assert CreatorRests(c, x, c.creators[x]);
    }
  }

  lemma RemoveGone(c: Chain, c': Chain, id: nat, name: string)
    requires Struct(c) && PublisherOk(c) && GoneOk(c) && Removes(c, c', id, name)
    ensures GoneOk(c')
  {
    hide Struct, PublisherOk, AtRest, Open, Kept, Current;
    RemoveFrame(c, c', id, name);
    RemovedIsOlder(c, c', id, name);
    if !c'.past.overlapped {
      NotCarried(c, id, name);
      RemovedClean(c, c', id, name);
    }
    hide Carried;
  }

  lemma RemovedIsOlder(c: Chain, c': Chain, id: nat, name: string)
    requires Struct(c) && PublisherOk(c) && Removes(c, c', id, name)
    ensures name in c.past.made && c.past.publisher.Some? && c.past.made[name] < c.past.publisher.value
  {
    hide Carried, Kept, AtRest, Ordered;
    assert AllBefore(c, id, c.rows[id].ctx.retained) && c.past.publisher.Some? && id <= c.past.publisher.value;
  }

  lemma NotCarried(c: Chain, id: nat, name: string)
    requires !Carried(c, id, name)
    ensures c.past.publisher != Some(id) ==> name !in Kept(c)
    ensures forall x: nat | Current(c, x) :: !CarriesBox(c, x, name)
  {
  }

  lemma RemovedClean(c: Chain, c': Chain, id: nat, name: string)
    requires GoneOk(c) && !c.past.overlapped && Removes(c, c', id, name)
    requires c.past.publisher != Some(id) ==> name !in Kept(c)
    requires forall x: nat | Current(c, x) :: !CarriesBox(c, x, name)
    ensures NoneGone(c', Kept(c'))
    ensures forall x: nat | Current(c', x) :: NoneGone(c', c'.rows[x].ctx.retained)
    ensures forall x: nat | Current(c', x) && x in c'.creators && c'.creators[x].pc.Collected? ::
              NoneGone(c', c'.creators[x].pc.kept)
  {
    hide Removes, Carried, Kept, AtRest, Open;
    RemoveFrame(c, c', id, name);
    forall x: nat | Current(c', x) ensures NoneGone(c', c'.rows[x].ctx.retained) {
      assert !CarriesBox(c, x, name) && NoneGone(c, c.rows[x].ctx.retained);
    }
    forall x: nat | Current(c', x) && x in c'.creators && c'.creators[x].pc.Collected?
      ensures NoneGone(c', c'.creators[x].pc.kept)
    {
      assert !CarriesBox(c, x, name) && NoneGone(c, c.creators[x].pc.kept);
    }
  }

  lemma RemoveConserved(c: Chain, c': Chain, id: nat, name: string)
    requires Conserved(c) && Removes(c, c', id, name)
    ensures Conserved(c')
  {
    hide Struct, PublisherOk, Account, GoneOk, Removes;
    RemoveStruct(c, c', id, name);
    RemovePublisher(c, c', id, name);
    RemoveAccount(c, c', id, name);
    RemoveGone(c, c', id, name);
  }

  /* ---------- other configuration changes ---------- */

  lemma ConfigureConserved(c: Chain, desired: nat)
    requires Conserved(c) && c.desired <= desired && forall x | x in c.rows :: c.rows[x].revision <= c.desired
    ensures Conserved(c.(desired := desired))
  {
    var c' := c.(desired := desired);
    hide Struct, Account, PublisherOk, GoneOk, Kept, AtRest, Open, Current;
    ConfiguredFrame(c, desired);
    ConfiguredStruct(c, c');
    ConfiguredAccount(c, c');
    ConfiguredPublisher(c, c');
  }

  lemma ConfiguredFrame(c: Chain, desired: nat)
    requires c.desired <= desired && forall x | x in c.rows :: c.rows[x].revision <= c.desired
    ensures var c' := c.(desired := desired);
            && Kept(c') == Kept(c) && (forall n :: AtRest(c', n) == AtRest(c, n))
            && forall x: nat :: (Current(c', x) ==> Current(c, x)) && Open(c', x) == Open(c, x)
  {
    assert Kept(c.(desired := desired)) == Kept(c);
    hide Kept;
  }

  lemma ConfiguredPublisher(c: Chain, c': Chain)
    requires PublisherOk(c) && GoneOk(c) && c' == c.(desired := c'.desired) && Kept(c') == Kept(c)
    requires forall x: nat | Current(c', x) :: Current(c, x)
    ensures PublisherOk(c') && GoneOk(c')
  {
    hide Kept;
  }

  lemma ConfiguredStruct(c: Chain, c': Chain)
    requires Struct(c) && c' == c.(desired := c'.desired)
    ensures Struct(c')
  {
    StructFrom(c, c');
  }

  lemma ConfiguredAccount(c: Chain, c': Chain)
    requires Account(c) && c' == c.(desired := c'.desired)
    requires Kept(c') == Kept(c) && forall x: nat :: (Current(c', x) ==> Current(c, x)) && Open(c', x) == Open(c, x)
    requires forall n :: AtRest(c', n) == AtRest(c, n)
    ensures Account(c')
  {
    hide Kept, AtRest, Open;
    forall n | n in c'.past.made ensures Accounted(c', n) {
      assert Accounted(c, n);
      if !AtRest(c, n) {
        var x: nat :| Open(c, x) && Charged(c, x, n);
        assert Open(c', x) && Charged(c', x, n);
      }
    }
    forall x: nat | Current(c', x) && c'.rows[x].ctx.marker != "" ensures CarriesAll(c', c'.rows[x].ctx.retained) {
      assert CarriesAll(c, c.rows[x].ctx.retained);
    }
    forall x: nat | Current(c', x) && x in c'.creators && c'.creators[x].pc.Collected?
      ensures CarriesAll(c', c'.creators[x].pc.kept)
    {
      assert CarriesAll(c, c.creators[x].pc.kept);
    }
    forall x | x in c'.rows ensures RowRests(c', x, c'.rows[x]) {
      assert RowRests(c, x, c.rows[x]);
    }
    forall x | x in c'.creators ensures CreatorRests(c', x, c'.creators[x]) {
      assert CreatorRests(c, x, c.creators[x]);
    }
  }
}
