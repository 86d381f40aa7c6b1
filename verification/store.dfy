/**
  The store (internal/store/store.go): sealing into S3 and the catalog, catalog
  snapshots, and recovery of the catalog from S3.
 */
module Store {
  import opened Model
  import opened Offsets
  import opened Wire
  import opened SegmentKeys
  import opened Catalog

  /** An S3 object: a segment file, a sidecar, or a catalog snapshot. */
  datatype Object = Body(data: seq<byte>) | Sidecar(meta: SegmentMeta) | Snap(entries: map<Key, SegmentMeta>)

  /** How far a seal gets; a put that is reported as failed may have been stored. */
  datatype Outcome = BodyFails(stored: bool) | SidecarFails(stored: bool) | CatalogFails | Sealed

  function Cleared(m: SegmentMeta): SegmentMeta {
    m.(localPath := "")
  }

  predicate IsSidecarKey(cfg: Config, k: string) {
    cfg.SegPrefix() <= k && HasSuffix(k, META_SUFFIX)
  }

  /** The sidecar of m is in S3 under m's key. */
  ghost predicate HasSidecar(objs: map<string, Object>, m: SegmentMeta) {
    m.s3Key + META_SUFFIX in objs && objs[m.s3Key + META_SUFFIX] == Sidecar(Cleared(m))
  }

  /** What Seal puts under a sidecar key. */
  ghost predicate SidecarOk(cfg: Config, k: string, o: Object) {
    && o.Sidecar?
    && o.meta.localPath == "" && o.meta.id != "" && CleanId(o.meta.id)
    && o.meta.s3Key == SegKeyFor(cfg, o.meta)
    && k == o.meta.s3Key + META_SUFFIX
  }

  ghost predicate SidecarsOk(cfg: Config, objs: map<string, Object>) {
    && (forall k :: k in objs && IsSidecarKey(cfg, k) ==> SidecarOk(cfg, k, objs[k]))
    && (forall k, l ::
      k in objs && l in objs && IsSidecarKey(cfg, k) && IsSidecarKey(cfg, l) && objs[k].meta.id == objs[l].meta.id ==> k == l)
  }

  /** Every entry is under its own key and has its sidecar. */
  ghost predicate Within(cfg: Config, bucket: map<Key, SegmentMeta>, objs: map<string, Object>) {
    WellKeyed(bucket) && forall k :: k in bucket ==> EntryOk(cfg, bucket[k], objs)
  }

  ghost predicate EntryOk(cfg: Config, m: SegmentMeta, objs: map<string, Object>) {
    HasSidecar(objs, m) && IsSidecarKey(cfg, m.s3Key + META_SUFFIX)
  }

  /** Every sidecar is cataloged. */
  ghost predicate Complete(cfg: Config, bucket: map<Key, SegmentMeta>, objs: map<string, Object>) {
    forall k :: k in objs && IsSidecarKey(cfg, k) ==> Cataloged(bucket, objs[k])
  }

  ghost predicate Cataloged(bucket: map<Key, SegmentMeta>, o: Object) {
    o.Sidecar? && KeyOf(o.meta) in bucket && Cleared(bucket[KeyOf(o.meta)]) == o.meta
  }

  ghost predicate SnapsOk(cfg: Config, objs: map<string, Object>) {
    forall k :: k in objs && cfg.SnapPrefix() <= k ==> objs[k].Snap? && Within(cfg, objs[k].entries, objs)
  }

  /** The newest snapshot: its key sorts last. */
  predicate Newest(cfg: Config, objs: map<string, Object>, latest: string) {
    && latest in objs && cfg.SnapPrefix() <= latest && objs[latest].Snap?
    && forall k :: k in objs && cfg.SnapPrefix() <= k ==> !Less(Codes(latest), Codes(k))
  }

  /** Every entry stays, every id of the snapshot is there, and what is new is a
      cleared entry of the snapshot whose id was missing. */
  ghost predicate Loaded(before: map<Key, SegmentMeta>, snap: map<Key, SegmentMeta>, now: map<Key, SegmentMeta>) {
    LoadedBut(before, snap, {}, now)
  }

  ghost predicate LoadedBut(before: map<Key, SegmentMeta>, snap: map<Key, SegmentMeta>, todo: set<Key>, now: map<Key, SegmentMeta>) {
    && (forall k :: k in before ==> k in now && now[k] == before[k])
    && (forall k :: k in now && k !in before ==> k in snap && now[k] == Cleared(snap[k]) && !HasId(before, snap[k].id))
    && (forall k :: k in snap && k !in todo ==> HasId(now, snap[k].id))
  }

  ghost predicate Unused(cfg: Config, objs: map<string, Object>, id: string) {
    forall k :: k in objs && IsSidecarKey(cfg, k) && objs[k].Sidecar? ==> objs[k].meta.id != id
  }

  // ---- What entries determine ----

  /** Two catalogs that hold exactly the sidecars agree up to local paths. */
  lemma ExactCatalogsAgree(cfg: Config, a: map<Key, SegmentMeta>, b: map<Key, SegmentMeta>, objs: map<string, Object>)
    requires SidecarsOk(cfg, objs)
    requires Within(cfg, a, objs) && Complete(cfg, a, objs) && Within(cfg, b, objs) && Complete(cfg, b, objs)
    ensures a.Keys == b.Keys && forall k :: k in a ==> Cleared(a[k]) == Cleared(b[k])
  {
    hide KeyOf, SegKeyFor, IsSidecarKey;
    forall k | k in a ensures k in b && Cleared(a[k]) == Cleared(b[k]) {
      EntryIn(cfg, a, b, objs, k);
    }
    forall k | k in b ensures k in a {
      EntryIn(cfg, b, a, objs, k);
    }
  }

  lemma EntryIn(cfg: Config, a: map<Key, SegmentMeta>, b: map<Key, SegmentMeta>, objs: map<string, Object>, k: Key)
    requires Within(cfg, a, objs) && Complete(cfg, b, objs) && k in a
    ensures k in b && Cleared(a[k]) == Cleared(b[k])
  {
    hide IsSidecarKey;
    assert EntryOk(cfg, a[k], objs);
    var s := a[k].s3Key + META_SUFFIX;
    assert Cataloged(b, objs[s]);
    SameKey(a[k]);
  }

  lemma SameKey(m: SegmentMeta)
    ensures KeyOf(Cleared(m)) == KeyOf(m)
  {
  }

  /** An entry with the id of a sidecar is that sidecar's entry. */
  lemma SameIdCataloged(cfg: Config, bucket: map<Key, SegmentMeta>, objs: map<string, Object>, s: string)
    requires SidecarsOk(cfg, objs) && Within(cfg, bucket, objs)
    requires s in objs && IsSidecarKey(cfg, s) && HasId(bucket, objs[s].meta.id)
    ensures Cataloged(bucket, objs[s])
  {
    hide IsSidecarKey, KeyOf, SegKeyFor;
    var k :| k in bucket && bucket[k].id == objs[s].meta.id;
    assert EntryOk(cfg, bucket[k], objs);
    assert bucket[k].s3Key + META_SUFFIX == s;
    SameKey(bucket[k]);
  }

  /** Adding a sidecar's own entry keeps the catalog within S3. */
  lemma PutWithin(cfg: Config, bucket: map<Key, SegmentMeta>, objs: map<string, Object>, m: SegmentMeta)
    requires Within(cfg, bucket, objs) && EntryOk(cfg, m, objs)
    ensures Within(cfg, bucket[KeyOf(m) := m], objs)
  {
    hide IsSidecarKey, KeyOf, HasSidecar;
  }

  class Store {
    const cfg: Config
    var objs: map<string, Object>
    var bucket: map<Key, SegmentMeta>

    ghost predicate Valid()
      reads this
    {
      SidecarsOk(cfg, objs) && SnapsOk(cfg, objs) && Within(cfg, bucket, objs)
    }

    constructor (cfg: Config)
      ensures Valid() && this.cfg == cfg && objs == map[] && bucket == map[]
    {
      this.cfg, objs, bucket := cfg, map[], map[];
    }

    /** Body, sidecar, catalog: each step may be the last. */
    method Seal(id: string, meta: SegmentMeta, data: seq<byte>, path: string, outcome: Outcome)
      returns (ok: bool, out: SegmentMeta)
      requires Valid() && id != "" && CleanId(id) && Unused(cfg, objs, id)
      modifies this
      ensures Valid()
      ensures ok <==> outcome.Sealed?
      ensures out == meta.(id := id, s3Key := SegKeyFor(cfg, meta.(id := id)), localPath := path)
      ensures outcome == BodyFails(false) ==> objs == old(objs)
      ensures outcome == BodyFails(true) || outcome == SidecarFails(false) ==> objs == old(objs)[out.s3Key := Body(data)]
      ensures outcome == SidecarFails(true) || outcome.CatalogFails? || ok ==>
        objs == old(objs)[out.s3Key := Body(data)][out.s3Key + META_SUFFIX := Sidecar(Cleared(out))]
      ensures bucket == if ok then old(bucket)[KeyOf(out) := out] else old(bucket)
      ensures ok && old(Complete(cfg, bucket, objs)) ==> Complete(cfg, bucket, objs)
    {
      var m := meta.(id := id);
      m := m.(s3Key := SegKeyFor(cfg, m));
      out := m.(localPath := path);
      ok := false;
      if outcome == BodyFails(false) {
        return;
      }
      BodyAdded(cfg, objs, bucket, m, data);
      objs := objs[m.s3Key := Body(data)];
      if outcome.BodyFails? || outcome == SidecarFails(false) {
        return;
      }
      SidecarAdded(cfg, objs, bucket, Cleared(m));
      ghost var before := objs;
      objs := objs[m.s3Key + META_SUFFIX := Sidecar(Cleared(m))];
      if outcome.SidecarFails? || outcome.CatalogFails? {
        return;
      }
      KeysApart(cfg, m);
      PutWithin(cfg, bucket, objs, out);
      if old(Complete(cfg, bucket, objs)) { EntryAdded(cfg, bucket, before, objs, out); }
      bucket := bucket[KeyOf(out) := out];
      ok := true;
    }

    /** Uploads a copy of the catalog. */
    method Snapshot(id: string)
      requires Valid()
      modifies this`objs
      ensures Valid()
      ensures objs == old(objs)[cfg.SnapPrefix() + id + ".snap" := Snap(bucket)]
    {
      SnapAdded(cfg, objs, bucket, id);
      objs := objs[cfg.SnapPrefix() + id + ".snap" := Snap(bucket)];
    }

    /** The pod moves: everything local is gone. */
    method LoseLocalState()
      requires Valid()
      modifies this`bucket
      ensures Valid() && bucket == map[]
    {
      bucket := map[];
    }

    /** Copies in the entries of the newest snapshot whose ids are missing. */
    method LoadLatestSnapshot()
      requires Valid()
      modifies this`bucket
      ensures Valid()
      ensures forall latest :: Newest(cfg, objs, latest) ==> Loaded(old(bucket), objs[latest].entries, bucket)
      ensures (forall k :: k in objs ==> !(cfg.SnapPrefix() <= k)) ==> bucket == old(bucket)
      ensures old(Complete(cfg, bucket, objs)) ==> bucket == old(bucket)
    {
      hide KeyOf, IsSidecarKey, SidecarsOk, HasSidecar, SegKeyFor, Complete, HasId;
      var keys := set k | k in objs && cfg.SnapPrefix() <= k;
      if keys == {} {
        assert forall k :: k in objs && cfg.SnapPrefix() <= k ==> k in keys;
        NoneNewest(cfg, objs);
        return;
      }
      var latest := Latest(keys);
      NewestUnique(cfg, objs, latest);
      var todo := objs[latest].entries.Keys;
      while todo != {}
        invariant todo <= objs[latest].entries.Keys
        invariant Within(cfg, bucket, objs)
        invariant LoadedBut(old(bucket), objs[latest].entries, todo, bucket)
        invariant old(Complete(cfg, bucket, objs)) ==> bucket == old(bucket)
        decreases todo
      {
        var k :| k in todo;
        var m := objs[latest].entries[k].(localPath := "");
        var has := Has(bucket, m.id);
        SnapEntry(cfg, objs, bucket, latest, k);
        LoadOne(old(bucket), objs[latest].entries, todo, bucket, k, has);
        todo := todo - {k};
        if !has {
          PutWithin(cfg, bucket, objs, m);
          bucket := bucket[KeyOf(m) := m];
        }
      }
    }

    /** The key that sorts last. */
    method Latest(keys: set<string>) returns (latest: string)
      requires keys != {}
      ensures latest in keys && forall k :: k in keys ==> !Less(Codes(latest), Codes(k))
    {
      latest :| latest in keys;
      var todo := keys - {latest};
      LessTotal(Codes(latest), Codes(latest));
      while todo != {}
        invariant latest in keys && todo <= keys
        invariant forall k :: k in keys - todo ==> !Less(Codes(latest), Codes(k))
        decreases todo
      {
        var k :| k in todo;
        todo := todo - {k};
        if Less(Codes(latest), Codes(k)) {
          forall x | x in keys - todo ensures !Less(Codes(k), Codes(x)) {
            LessTotal(Codes(k), Codes(x));
            if Less(Codes(k), Codes(x)) { LessTransitive(Codes(latest), Codes(k), Codes(x)); }
          }
          latest := k;
        }
      }
    }

    /** Rebuilds the catalog: afterwards it holds every sidecar exactly once and
        nothing else, whatever was left of it and whichever snapshot there is.
        A complete catalog is left as it is. */
    method Recover()
      requires Valid()
      modifies this`bucket
      ensures Valid() && Complete(cfg, bucket, objs)
      ensures old(Complete(cfg, bucket, objs)) ==> bucket == old(bucket)
    {
      hide KeyOf, SegKeyFor, IdFromSegKey, Within, Cataloged;
      LoadLatestSnapshot();
      ghost var loaded := bucket;
      var keys := set k | k in objs && cfg.SegPrefix() <= k;
      var todo := keys;
      while todo != {}
        invariant todo <= keys
        invariant Within(cfg, bucket, objs)
        invariant forall k :: k in keys - todo && IsSidecarKey(cfg, k) ==> Cataloged(bucket, objs[k])
        invariant old(Complete(cfg, bucket, objs)) ==> bucket == loaded
        decreases todo
      {
        var k :| k in todo;
        todo := todo - {k};
        if !HasSuffix(k, META_SUFFIX) {
          continue;
        }
        var segKey := TrimSuffix(k, META_SUFFIX);
        var id := IdFromSegKey(segKey);
        SidecarKeyBack(cfg, objs, k);
        if id == "" {
          continue;
        }
        var has := Has(bucket, id);
        CompleteHasId(cfg, bucket, objs, k);
        if has {
          SameIdCataloged(cfg, bucket, objs, k);
          continue;
        }
        var meta := objs[k].meta.(id := id, s3Key := segKey, localPath := "");
        assert meta == objs[k].meta;
        Backfill(cfg, bucket, objs, k);
        bucket := bucket[KeyOf(meta) := meta];
      }
    }

    /** The highest cataloged offset of each source. */
    method SourceWatermarks() returns (out: map<string, int>)
      ensures IsHighest(bucket, bucket.Keys, out)
    {
      out := map[];
      var todo := bucket.Keys;
      while todo != {}
        invariant todo <= bucket.Keys && IsHighest(bucket, bucket.Keys - todo, out)
        decreases todo
      {
        var k :| k in todo;
        HighestStep(bucket, bucket.Keys - todo, out, k);
        assert bucket.Keys - todo + {k} == bucket.Keys - (todo - {k});
        todo := todo - {k};
        out := MergeInto(out, bucket[k].sourceOffsets);
      }
    }
  }

  // ---- How the invariant survives ----

  /** Prefixes keep segments and snapshots apart, suffixes bodies and sidecars. */
  lemma KeysApart(cfg: Config, m: SegmentMeta)
    ensures IsSidecarKey(cfg, SegKeyFor(cfg, m) + META_SUFFIX)
    ensures !IsSidecarKey(cfg, SegKeyFor(cfg, m))
    ensures !(cfg.SnapPrefix() <= SegKeyFor(cfg, m)) && !(cfg.SnapPrefix() <= SegKeyFor(cfg, m) + META_SUFFIX)
  {
    KeyShape(cfg, m);
    assert cfg.SnapPrefix()[0] == 'c' && cfg.SegPrefix()[0] == 's';
    assert SegKeyFor(cfg, m)[0] == 's' && (SegKeyFor(cfg, m) + META_SUFFIX)[0] == 's';
  }

  lemma NoneNewest(cfg: Config, objs: map<string, Object>)
    requires forall k :: k in objs ==> !(cfg.SnapPrefix() <= k)
    ensures forall k :: !Newest(cfg, objs, k)
  {
  }

  lemma NewestUnique(cfg: Config, objs: map<string, Object>, latest: string)
    requires Newest(cfg, objs, latest)
    ensures forall k :: Newest(cfg, objs, k) ==> k == latest
  {
    forall k | Newest(cfg, objs, k) ensures k == latest {
      LessTotal(Codes(k), Codes(latest));
      CodesInjective(k, latest);
    }
  }

  lemma IdsAfterPut(bucket: map<Key, SegmentMeta>, k: Key, m: SegmentMeta, id: string)
    requires k !in bucket
    ensures HasId(bucket[k := m], id) <==> HasId(bucket, id) || m.id == id
  {
    if HasId(bucket, id) {
      var i :| i in bucket && bucket[i].id == id;
      assert bucket[k := m][i].id == id;
    }
    if m.id == id { assert bucket[k := m][k].id == id; }
  }

  lemma IdsStay(before: map<Key, SegmentMeta>, now: map<Key, SegmentMeta>, id: string)
    requires forall k :: k in before ==> k in now && now[k] == before[k]
    ensures HasId(before, id) ==> HasId(now, id)
  {
    if HasId(before, id) {
      var i :| i in before && before[i].id == id;
      assert now[i].id == id;
    }
  }

  /** One entry of the snapshot: put in if its id is missing. */
  lemma LoadOne(before: map<Key, SegmentMeta>, snap: map<Key, SegmentMeta>, todo: set<Key>, now: map<Key, SegmentMeta>, k: Key, has: bool)
    requires LoadedBut(before, snap, todo, now) && k in todo && k in snap
    requires has <==> HasId(now, snap[k].id)
    requires !has ==> k !in now
    ensures LoadedBut(before, snap, todo - {k}, if has then now else now[k := Cleared(snap[k])])
  {
    hide HasId;
    IdsStay(before, now, snap[k].id);
    if !has {
      forall j | j in snap && j !in todo - {k} ensures HasId(now[k := Cleared(snap[k])], snap[j].id) {
        IdsAfterPut(now, k, Cleared(snap[k]), snap[j].id);
      }
    }
  }

  lemma SnapKeyApart(cfg: Config, id: string)
    ensures cfg.SnapPrefix() <= cfg.SnapPrefix() + id + ".snap"
    ensures !IsSidecarKey(cfg, cfg.SnapPrefix() + id + ".snap")
  {
    var key := cfg.SnapPrefix() + id + ".snap";
    assert key[0] == 'c' && cfg.SegPrefix()[0] == 's';
  }

  /** objs' differs from objs at one key, which is no sidecar of objs. */
  ghost predicate OnlyAdds(cfg: Config, objs: map<string, Object>, key: string, objs': map<string, Object>) {
    && (forall k :: k in objs && k != key ==> k in objs' && objs'[k] == objs[k])
    && (forall k :: k in objs' && k != key ==> k in objs)
    && (key in objs && IsSidecarKey(cfg, key) ==> key in objs' && objs'[key] == objs[key])
  }

  lemma WithinGrows(cfg: Config, bucket: map<Key, SegmentMeta>, objs: map<string, Object>, key: string, objs': map<string, Object>)
    requires Within(cfg, bucket, objs) && OnlyAdds(cfg, objs, key, objs')
    ensures Within(cfg, bucket, objs')
  {
    hide KeyOf, IsSidecarKey;
    forall k | k in bucket ensures EntryOk(cfg, bucket[k], objs') {
      assert EntryOk(cfg, bucket[k], objs);
    }
  }

  lemma SnapsGrow(cfg: Config, objs: map<string, Object>, key: string, objs': map<string, Object>)
    requires SnapsOk(cfg, objs) && OnlyAdds(cfg, objs, key, objs') && !(cfg.SnapPrefix() <= key)
    ensures SnapsOk(cfg, objs')
  {
    hide IsSidecarKey, Within;
    forall k | k in objs' && cfg.SnapPrefix() <= k ensures objs'[k].Snap? && Within(cfg, objs'[k].entries, objs') {
      WithinGrows(cfg, objs[k].entries, objs, key, objs');
    }
  }

  lemma BodyAdded(cfg: Config, objs: map<string, Object>, bucket: map<Key, SegmentMeta>, m: SegmentMeta, data: seq<byte>)
    requires SidecarsOk(cfg, objs) && SnapsOk(cfg, objs) && Within(cfg, bucket, objs)
    requires m.s3Key == SegKeyFor(cfg, m)
    ensures var objs' := objs[m.s3Key := Body(data)];
      && SidecarsOk(cfg, objs') && SnapsOk(cfg, objs') && Within(cfg, bucket, objs')
      && (Complete(cfg, bucket, objs) ==> Complete(cfg, bucket, objs'))
      && (forall id :: Unused(cfg, objs, id) ==> Unused(cfg, objs', id))
  {
    hide SegKeyFor, IsSidecarKey, Within, Cataloged, SidecarOk;
    var objs' := objs[m.s3Key := Body(data)];
    KeysApart(cfg, m);
    assert OnlyAdds(cfg, objs, m.s3Key, objs');
    WithinGrows(cfg, bucket, objs, m.s3Key, objs');
    SnapsGrow(cfg, objs, m.s3Key, objs');
  }

  lemma SidecarAdded(cfg: Config, objs: map<string, Object>, bucket: map<Key, SegmentMeta>, m: SegmentMeta)
    requires SidecarsOk(cfg, objs) && SnapsOk(cfg, objs) && Within(cfg, bucket, objs)
    requires SidecarOk(cfg, m.s3Key + META_SUFFIX, Sidecar(m)) && Unused(cfg, objs, m.id)
    ensures var objs' := objs[m.s3Key + META_SUFFIX := Sidecar(m)];
      SidecarsOk(cfg, objs') && SnapsOk(cfg, objs') && Within(cfg, bucket, objs') && HasSidecar(objs', m)
  {
    hide SegKeyFor, IsSidecarKey, Within, CleanId;
    var key := m.s3Key + META_SUFFIX;
    var objs' := objs[key := Sidecar(m)];
    KeysApart(cfg, m);
    assert !(key in objs && IsSidecarKey(cfg, key)) by {
      if key in objs && IsSidecarKey(cfg, key) {
        assert SidecarOk(cfg, key, objs[key]);
        SameSidecarKey(cfg, objs[key].meta, m);
      }
    }
    assert OnlyAdds(cfg, objs, key, objs');
    WithinGrows(cfg, bucket, objs, key, objs');
    SnapsGrow(cfg, objs, key, objs');
  }

  /** Sidecars of clean ids under the same key have the same id. */
  lemma SameSidecarKey(cfg: Config, a: SegmentMeta, b: SegmentMeta)
    requires CleanId(a.id) && CleanId(b.id) && a.s3Key == SegKeyFor(cfg, a) && b.s3Key == SegKeyFor(cfg, b)
    requires a.s3Key + META_SUFFIX == b.s3Key + META_SUFFIX
    ensures a.id == b.id
  {
    hide SegKeyFor, IdFromSegKey;
    KeyGivesIdIff(cfg, a);
    KeyGivesIdIff(cfg, b);
    assert a.s3Key == (a.s3Key + META_SUFFIX)[..|a.s3Key|];
    assert b.s3Key == (b.s3Key + META_SUFFIX)[..|b.s3Key|];
  }

  /** The new entry completes a catalog that was complete before. */
  lemma EntryAdded(cfg: Config, bucket: map<Key, SegmentMeta>, was: map<string, Object>, objs: map<string, Object>, m: SegmentMeta)
    requires Within(cfg, bucket, was) && Complete(cfg, bucket, was) && Unused(cfg, was, m.id)
    requires objs == was[m.s3Key + META_SUFFIX := Sidecar(Cleared(m))] && SidecarsOk(cfg, was)
    ensures Complete(cfg, bucket[KeyOf(m) := m], objs)
  {
    hide SegKeyFor, IsSidecarKey, KeyOf;
    forall k | k in objs && IsSidecarKey(cfg, k) ensures Cataloged(bucket[KeyOf(m) := m], objs[k]) {
      if k == m.s3Key + META_SUFFIX {
        SameKey(m);
      } else {
        assert SidecarOk(cfg, k, was[k]) && Cataloged(bucket, was[k]);
        if KeyOf(was[k].meta) == KeyOf(m) { KeyHasId(was[k].meta, m); }
      }
    }
  }

  lemma SnapAdded(cfg: Config, objs: map<string, Object>, bucket: map<Key, SegmentMeta>, id: string)
    requires SidecarsOk(cfg, objs) && SnapsOk(cfg, objs) && Within(cfg, bucket, objs)
    ensures var objs' := objs[cfg.SnapPrefix() + id + ".snap" := Snap(bucket)];
      SidecarsOk(cfg, objs') && SnapsOk(cfg, objs') && Within(cfg, bucket, objs')
  {
    hide IsSidecarKey, Within, SidecarOk;
    var key := cfg.SnapPrefix() + id + ".snap";
    var objs' := objs[key := Snap(bucket)];
    SnapKeyApart(cfg, id);
    assert OnlyAdds(cfg, objs, key, objs');
    WithinGrows(cfg, bucket, objs, key, objs');
    forall k | k in objs' && cfg.SnapPrefix() <= k ensures objs'[k].Snap? && Within(cfg, objs'[k].entries, objs') {
      if k != key { WithinGrows(cfg, objs[k].entries, objs, key, objs'); }
    }
  }

  /** A snapshot's entry is some sidecar's; with its id cataloged nothing is missing. */
  lemma SnapEntry(cfg: Config, objs: map<string, Object>, bucket: map<Key, SegmentMeta>, snap: string, k: Key)
    requires SidecarsOk(cfg, objs) && SnapsOk(cfg, objs) && Within(cfg, bucket, objs)
    requires snap in objs && cfg.SnapPrefix() <= snap && k in objs[snap].entries
    ensures var m := Cleared(objs[snap].entries[k]);
      && EntryOk(cfg, m, objs)
      && KeyOf(m) == k && (!HasId(bucket, m.id) ==> k !in bucket)
      && (Complete(cfg, bucket, objs) ==> HasId(bucket, m.id))
  {
    hide KeyOf, IsSidecarKey, SegKeyFor;
    var e := objs[snap].entries[k];
    assert EntryOk(cfg, e, objs);
    var m := Cleared(e);
    SameKey(e);
    if KeyOf(m) in bucket { KeyHasId(bucket[KeyOf(m)], m); }
    if Complete(cfg, bucket, objs) {
      assert Cataloged(bucket, objs[m.s3Key + META_SUFFIX]);
      assert bucket[KeyOf(m)].id == m.id;
    }
  }

  /** What Recover reads off a sidecar's key is what the sidecar says. */
  lemma SidecarKeyBack(cfg: Config, objs: map<string, Object>, k: string)
    requires SidecarsOk(cfg, objs) && k in objs && cfg.SegPrefix() <= k && HasSuffix(k, META_SUFFIX)
    ensures var m, segKey := objs[k].meta, TrimSuffix(k, META_SUFFIX);
      objs[k].Sidecar? && segKey == m.s3Key && IdFromSegKey(segKey) == m.id && m.id != "" && m.localPath == ""
  {
    assert SidecarOk(cfg, k, objs[k]);
    hide SegKeyFor, IdFromSegKey, CleanId;
    KeyShape(cfg, objs[k].meta);
    KeyGivesIdIff(cfg, objs[k].meta);
  }

  /** Cataloging a missing sidecar. */
  lemma Backfill(cfg: Config, bucket: map<Key, SegmentMeta>, objs: map<string, Object>, k: string)
    requires SidecarsOk(cfg, objs) && Within(cfg, bucket, objs)
    requires k in objs && IsSidecarKey(cfg, k) && !HasId(bucket, objs[k].meta.id)
    ensures var m := objs[k].meta; var bucket' := bucket[KeyOf(m) := m];
      && Within(cfg, bucket', objs) && Cataloged(bucket', objs[k])
      && (forall o :: Cataloged(bucket, o) ==> Cataloged(bucket', o))
  {
    hide KeyOf, IsSidecarKey, SegKeyFor, CleanId;
    assert SidecarOk(cfg, k, objs[k]);
    var m := objs[k].meta;
    assert EntryOk(cfg, m, objs);
    PutWithin(cfg, bucket, objs, m);
    if KeyOf(m) in bucket { KeyHasId(bucket[KeyOf(m)], m); }
  }

  lemma CompleteHasId(cfg: Config, bucket: map<Key, SegmentMeta>, objs: map<string, Object>, k: string)
    requires SidecarsOk(cfg, objs) && k in objs && IsSidecarKey(cfg, k)
    ensures Complete(cfg, bucket, objs) ==> HasId(bucket, objs[k].meta.id)
  {
    hide KeyOf, IsSidecarKey, SidecarOk;
    if Complete(cfg, bucket, objs) {
      assert Cataloged(bucket, objs[k]);
      assert bucket[KeyOf(objs[k].meta)].id == objs[k].meta.id;
    }
  }

  /** out holds the highest offset of each source over the entries seen. */
  ghost predicate IsHighest(bucket: map<Key, SegmentMeta>, seen: set<Key>, out: map<string, int>)
    requires seen <= bucket.Keys
  {
    && (forall k, s :: k in seen && s in bucket[k].sourceOffsets ==> bucket[k].sourceOffsets[s] <= At(out, s))
    && (forall s :: s in out ==>
      out[s] > 0 && exists k :: k in seen && s in bucket[k].sourceOffsets && bucket[k].sourceOffsets[s] == out[s])
  }

  lemma HighestStep(bucket: map<Key, SegmentMeta>, seen: set<Key>, was: map<string, int>, k: Key)
    requires seen <= bucket.Keys && k in bucket && IsHighest(bucket, seen, was)
    ensures IsHighest(bucket, seen + {k}, MergeMax(was, bucket[k].sourceOffsets))
  {
    var from := bucket[k].sourceOffsets;
    var out := MergeMax(was, from);
    forall s ensures At(was, s) <= At(out, s) && (s in from ==> from[s] <= At(out, s)) {
      MergeMaxAt(was, from, s);
    }
    hide MergeMax;
    forall s | s in out
      ensures out[s] > 0
      ensures exists l :: l in seen + {k} && s in bucket[l].sourceOffsets && bucket[l].sourceOffsets[s] == out[s]
    {
      MergeMaxIs(was, from, s);
      if !(s in from && from[s] == out[s]) {
        var l :| l in seen && s in bucket[l].sourceOffsets && bucket[l].sourceOffsets[s] == was[s];
        assert l in seen + {k};
      }
    }
  }
}
