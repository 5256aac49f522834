/**
 * `Rollback_Service`: per-product backups of the attribute data and of
 * each variation's attributes, kept in the `_local2global_backups` post
 * meta under a generated id, and their restoration.
 */
module Rollback {
  import opened PhpCore
  import opened PhpString
  import opened PhpArray
  import opened Host

  /** One exported variation: its id and its `get_attributes()`. */
  type VariationData = (int, seq<(string, AttributeValue)>)

  /** `get_post_meta($id, '_local2global_backups', true)` as an array; anything else counts as `[]`. */
  function StoredBackups(h: HostState, pid: int): seq<(string, Backup)>
  {
    if pid in h.backups && h.backups[pid].Backups? then h.backups[pid].entries else []
  }

  /** The `TypeError` the typed `array_map` callback raises on an entry that is not a `WC_Product_Attribute`. */
  const AttributeTypeError := FatalError("{closure}(): Argument #1 ($attribute) must be of type WC_Product_Attribute")

  /**
   * `array_map(fn(WC_Product_Attribute $a) => $a->get_data(), $original)`:
   * every attribute object's data under its own key, or a `TypeError` as
   * soon as one entry is not an object.
   */
  function AttributeData(original: seq<(string, AttributeValue)>): (r: Result<seq<(string, ProductAttribute)>>)
    ensures r.Ok? <==> forall i :: 0 <= i < |original| ==> original[i].1.AttributeObject?
    ensures r.Throw? ==> r.error == AttributeTypeError
    ensures r.Ok? ==> |r.value| == |original|
    ensures r.Ok? ==> forall i :: 0 <= i < |original| ==> original[i] == (r.value[i].0, AttributeObject(r.value[i].1))
  {
    if original == [] then Ok([])
    else if !original[0].1.AttributeObject? then Throw(AttributeTypeError)
    else
      var rest := AttributeData(original[1..]);
      if rest.Throw? then rest
      else Ok([(original[0].0, original[0].1.attr)] + rest.value)
  }

  /** The variations exported from the first children, in `foreach` order: `$variations[$vid] = get_attributes()`. */
  function ExportFrom(h: HostState, children: seq<int>): seq<VariationData>
    decreases |children|
  {
    if children == [] then []
    else
      var prev := ExportFrom(h, children[..|children| - 1]);
      var vid := children[|children| - 1];
      if IsVariationId(h, vid) then Put(prev, vid, h.products[vid].attributes) else prev
  }

  /** `export_variations`: nothing for a non-variable product. */
  function ExportedVariations(h: HostState, pid: int): seq<VariationData>
    requires pid in h.products
  {
    if !h.products[pid].IsVariable() then [] else ExportFrom(h, h.products[pid].children)
  }

  /**
   * The export holds exactly the children that are variations, each with
   * its current attributes, once.
   */
  lemma {:induction false} ExportFromContents(h: HostState, children: seq<int>)
    ensures DistinctKeys(ExportFrom(h, children))
    ensures forall vid ::
      Get(ExportFrom(h, children), vid) == (if vid in children && IsVariationId(h, vid) then Some(h.products[vid].attributes) else None)
    decreases |children|
  {
    if children != [] {
      var pre := children[..|children| - 1];
      var vid := children[|children| - 1];
      ExportFromContents(h, pre);
      assert children == pre + [vid];
      forall k ensures k in children <==> k in pre || k == vid {
      }
    }
  }

  /** The backup `create_backup` writes. */
  function NewBackup(h: HostState, pid: int, data: seq<(string, ProductAttribute)>, now: int): Backup
    requires pid in h.products
  {
    Backup(now, data, ExportedVariations(h, pid))
  }

  /**
   * `create_backup($product, $original)` with `wp_generate_uuid4()`
   * returning `backupId` and `time()` returning `now`.
   */
  function CreatedBackup(h: HostState, pid: int, original: seq<(string, AttributeValue)>, backupId: string, now: int): (Result<string>, HostState)
    requires pid in h.products
  {
    var data := AttributeData(original);
    if data.Throw? then (Throw(data.error), h)
    else
      var backups := Put(StoredBackups(h, pid), backupId, NewBackup(h, pid, data.value, now));
      (Ok(backupId), h.(backups := h.backups[pid := Backups(backups)]))
  }

  /**
   * A backup is created exactly when every original entry is an attribute
   * object; it is stored under its id next to the product's earlier
   * backups, and nothing else changes.
   */
  lemma CreatedBackupEffect(h: HostState, pid: int, original: seq<(string, AttributeValue)>, backupId: string, now: int)
    requires pid in h.products
    ensures var (r, h') := CreatedBackup(h, pid, original, backupId, now);
      (r.Ok? <==> forall i :: 0 <= i < |original| ==> original[i].1.AttributeObject?) &&
      (r.Throw? ==> h' == h) &&
      (r.Ok? ==> (
         r.value == backupId &&
         h' == h.(backups := h'.backups) &&
         h'.backups.Keys == h.backups.Keys + {pid} &&
         (forall other :: other in h.backups && other != pid ==> h'.backups[other] == h.backups[other]) &&
         Get(StoredBackups(h', pid), backupId).Some? &&
         Get(StoredBackups(h', pid), backupId).value.createdAt == now &&
         Values(Get(StoredBackups(h', pid), backupId).value.attributes) ==
           seq(|original|, i requires 0 <= i < |original| => original[i].1.attr) &&
         forall id :: id != backupId ==> Get(StoredBackups(h', pid), id) == Get(StoredBackups(h, pid), id)))
  {
  }

  /** `$restored[] = $attribute` for every backed-up attribute: the same objects under the keys `0`, `1`, … */
  function Reindex(attributes: seq<(string, ProductAttribute)>): (r: seq<(string, AttributeValue)>)
    ensures |r| == |attributes|
    ensures forall i :: 0 <= i < |r| ==> r[i] == (NatToString(i), AttributeObject(attributes[i].1))
  {
    seq(|attributes|, i requires 0 <= i < |attributes| => (NatToString(i), AttributeObject(attributes[i].1)))
  }

  /** `set_attributes($attributes); save();` on one product. */
  function SaveAttributes(h: HostState, id: int, attributes: seq<(string, AttributeValue)>): HostState
    requires id in h.products
  {
    h.(products := h.products[id := h.products[id].(attributes := attributes, saved := true)])
  }

  /** The `foreach` of `restore_variations` over the first variations: each id that is a variation gets its attributes back and is saved. */
  function RestoreFrom(h: HostState, variations: seq<VariationData>): HostState
    decreases |variations|
  {
    if variations == [] then h
    else
      var prev := RestoreFrom(h, variations[..|variations| - 1]);
      var last := variations[|variations| - 1];
      if IsVariationId(prev, last.0) then SaveAttributes(prev, last.0, last.1) else prev
  }

  /** `restore_variations`: the loop, then `WC_Product_Variable::sync` when the parent is variable. */
  function RestoredVariations(h: HostState, pid: int, isVariable: bool, variations: seq<VariationData>): HostState
  {
    var restored := RestoreFrom(h, variations);
    if isVariable then restored.(synced := restored.synced + [pid]) else restored
  }

  /**
   * Restoring variations writes back and saves exactly the listed ids that
   * are variations, and touches nothing but products.
   */
  lemma {:induction false} RestoreFromEffect(h: HostState, variations: seq<VariationData>)
    requires DistinctKeys(variations)
    ensures var h' := RestoreFrom(h, variations);
      h' == h.(products := h'.products) &&
      h'.products.Keys == h.products.Keys &&
      forall k :: k in h.products ==>
        h'.products[k] == (if IsVariationId(h, k) && HasKey(variations, k)
                           then h.products[k].(attributes := Get(variations, k).value, saved := true)
                           else h.products[k])
    decreases |variations|
  {
    if variations != [] {
      var pre := variations[..|variations| - 1];
      var last := variations[|variations| - 1];
      assert variations == pre + [last];
      assert DistinctKeys(pre);
      RestoreFromEffect(h, pre);
      var prev := RestoreFrom(h, pre);
      assert !HasKey(pre, last.0) by {
        forall j | 0 <= j < |pre| ensures pre[j].0 != last.0 {
          assert variations[j] == pre[j];
        }
      }
      forall k ensures Get(variations, k) == if k == last.0 then Some(last.1) else Get(pre, k) {
        FindAppend(pre, last, k);
      }
      assert IsVariationId(prev, last.0) == IsVariationId(h, last.0);
    }
  }

  /**
   * `restore_backup($pid, $backupId)` as intended: `false` without the
   * backup or the product, otherwise the restore, with
   * `set_props($attribute_data)` taken to set every field `get_data()`
   * saved.  `RestoredBackupAsWritten` is the code as it stands.
   */
  function RestoredBackup(h: HostState, pid: int, backupId: string): (bool, HostState)
  {
    var backups := StoredBackups(h, pid);
    var data := Get(backups, backupId);
    if data.None? || pid !in h.products then (false, h)
    else
      var h1 := SaveAttributes(h, pid, Reindex(data.value.attributes));
      var h2 := RestoredVariations(h1, pid, h.products[pid].IsVariable(), data.value.variations);
      (true, h2.(backups := h2.backups[pid := Backups(Remove(backups, backupId))]))
  }

  /**
   * A restore succeeds exactly when the backup and the product exist.  It
   * then gives the product the backed-up attribute objects in order,
   * gives every backed-up variation its attributes back, drops that
   * backup and keeps the product's other backups.
   */
  lemma RestoredBackupEffect(h: HostState, pid: int, backupId: string)
    requires !IsVariationId(h, pid)
    requires var b := Get(StoredBackups(h, pid), backupId); b.Some? ==> DistinctKeys(b.value.variations)
    ensures var (ok, h') := RestoredBackup(h, pid, backupId);
      var b := Get(StoredBackups(h, pid), backupId);
      (ok <==> b.Some? && pid in h.products) &&
      (!ok ==> h' == h) &&
      (ok ==> (
         h'.products.Keys == h.products.Keys &&
         h'.products[pid] == h.products[pid].(attributes := Reindex(b.value.attributes), saved := true) &&
         (forall vid :: vid in h.products && vid != pid ==>
            h'.products[vid] == (if IsVariationId(h, vid) && HasKey(b.value.variations, vid)
                                 then h.products[vid].(attributes := Get(b.value.variations, vid).value, saved := true)
                                 else h.products[vid])) &&
         !HasKey(StoredBackups(h', pid), backupId) &&
         (forall id :: id != backupId ==> Get(StoredBackups(h', pid), id) == Get(StoredBackups(h, pid), id)) &&
         (forall other :: other in h.backups && other != pid ==> other in h'.backups && h'.backups[other] == h.backups[other])))
  {
    var backups := StoredBackups(h, pid);
    var b := Get(backups, backupId);
    if b.Some? && pid in h.products {
      var h1 := SaveAttributes(h, pid, Reindex(b.value.attributes));
      RestoreFromEffect(h1, b.value.variations);
      forall vid | vid in h.products && vid != pid
        ensures IsVariationId(h1, vid) == IsVariationId(h, vid) && h1.products[vid] == h.products[vid]
      {
      }
    }
  }

  /**
   * Backing a product up and restoring that backup straight away brings
   * back the same attribute objects in the same order (under the keys
   * `0`, `1`, …), leaves every other product's attributes as they were,
   * and leaves the product's backups as they were before.
   */
  lemma {:induction false} BackupThenRestore(h: HostState, pid: int, backupId: string, now: int)
    requires pid in h.products && !h.products[pid].isVariation
    requires forall i :: 0 <= i < |h.products[pid].attributes| ==> h.products[pid].attributes[i].1.AttributeObject?
    requires !HasKey(StoredBackups(h, pid), backupId)
    ensures var (r, h1) := CreatedBackup(h, pid, h.products[pid].attributes, backupId, now);
      var (ok, h2) := RestoredBackup(h1, pid, backupId);
      r == Ok(backupId) && ok &&
      h2.products.Keys == h.products.Keys &&
      Values(h2.products[pid].attributes) == Values(h.products[pid].attributes) &&
      (forall vid :: vid in h.products && vid != pid ==> h2.products[vid].attributes == h.products[vid].attributes) &&
      StoredBackups(h2, pid) == StoredBackups(h, pid)
  {
    var original := h.products[pid].attributes;
    var data := AttributeData(original).value;
    var entries := StoredBackups(h, pid);
    var b := NewBackup(h, pid, data, now);
    var (r, h1) := CreatedBackup(h, pid, original, backupId, now);
    assert h1.products == h.products;
    assert StoredBackups(h1, pid) == Put(entries, backupId, b);
    assert Put(entries, backupId, b) == entries + [(backupId, b)];
    RemoveLast(entries, backupId, b);
    var vars := ExportedVariations(h, pid);
    assert DistinctKeys(vars) by {
      if h.products[pid].IsVariable() {
        ExportFromContents(h, h.products[pid].children);
      }
    }
    RestoredBackupEffect(h1, pid, backupId);
    var (ok, h2) := RestoredBackup(h1, pid, backupId);
    assert Values(h2.products[pid].attributes) == Values(original) by {
      assert h2.products[pid].attributes == Reindex(data);
    }
    forall vid | vid in h.products && vid != pid
      ensures h2.products[vid].attributes == h.products[vid].attributes
    {
      if IsVariationId(h, vid) && HasKey(vars, vid) {
        ExportFromContents(h, h.products[pid].children);
      }
    }
  }

  /** The message PHP raises for `set_props`, which `WC_Product_Attribute` does not define. */
  const UndefinedSetProps := "Call to undefined method WC_Product_Attribute::set_props()"

  /**
   * `restore_backup` as written against `WC_Product_Attribute` as
   * defined: the first `$attribute->set_props($attribute_data)` raises an
   * `Error`, so a backup holding any attribute is never restored and
   * nothing is written; a backup without attributes goes through as in
   * `RestoredBackup`.
   */
  function RestoredBackupAsWritten(h: HostState, pid: int, backupId: string): (Result<bool>, HostState)
  {
    var data := Get(StoredBackups(h, pid), backupId);
    if data.None? || pid !in h.products then (Ok(false), h)
    else if |data.value.attributes| > 0 then (Throw(FatalError(UndefinedSetProps)), h)
    else
      var (ok, h') := RestoredBackup(h, pid, backupId);
      (Ok(ok), h')
  }

  /**
   * As written, `restore_backup` fails with a fatal error, leaving the
   * store as it was, exactly when the backup and the product exist and the
   * backup holds an attribute; otherwise it agrees with the intended
   * version.
   */
  lemma AsWrittenRestoreFailsWithAttributes(h: HostState, pid: int, backupId: string)
    ensures var (w, hw) := RestoredBackupAsWritten(h, pid, backupId);
      var (ok, h') := RestoredBackup(h, pid, backupId);
      var b := Get(StoredBackups(h, pid), backupId);
      (w.Throw? <==> b.Some? && pid in h.products && |b.value.attributes| > 0) &&
      (w.Throw? ==> w.error == FatalError(UndefinedSetProps) && hw == h && ok) &&
      (w.Ok? ==> w.value == ok && hw == h')
  {
  }

  /**
   * Backing up a product that has an attribute and restoring that backup
   * straight away, as written, ends in the fatal error with the backup
   * still stored and the product's attributes not restored; the intended
   * version restores them (`BackupThenRestore`).
   */
  lemma {:induction false} BackupThenRestoreAsWrittenFails(h: HostState, pid: int, backupId: string, now: int)
    requires pid in h.products && |h.products[pid].attributes| > 0
    requires forall i :: 0 <= i < |h.products[pid].attributes| ==> h.products[pid].attributes[i].1.AttributeObject?
    requires !HasKey(StoredBackups(h, pid), backupId)
    ensures var (r, h1) := CreatedBackup(h, pid, h.products[pid].attributes, backupId, now);
      var (w, h2) := RestoredBackupAsWritten(h1, pid, backupId);
      r == Ok(backupId) && w == Throw(FatalError(UndefinedSetProps)) && h2 == h1 &&
      HasKey(StoredBackups(h2, pid), backupId)
  {
    var original := h.products[pid].attributes;
    var data := AttributeData(original).value;
    var entries := StoredBackups(h, pid);
    var b := NewBackup(h, pid, data, now);
    var (r, h1) := CreatedBackup(h, pid, original, backupId, now);
    assert StoredBackups(h1, pid) == Put(entries, backupId, b);
    assert Put(entries, backupId, b) == entries + [(backupId, b)];
    FindAppend(entries, (backupId, b), backupId);
    assert Get(StoredBackups(h1, pid), backupId) == Some(b);
    assert |b.attributes| == |original|;
  }

  /** Removing a key just appended gives the array back. */
  lemma {:induction false} RemoveLast(a: seq<(string, Backup)>, k: string, v: Backup)
    requires !HasKey(a, k)
    ensures Remove(a + [(k, v)], k) == a
    decreases |a|
  {
    if a == [] {
      assert ([] + [(k, v)])[1..] == [];
    } else {
      assert (a + [(k, v)])[1..] == a[1..] + [(k, v)];
      assert !HasKey(a[1..], k);
      RemoveLast(a[1..], k, v);
      assert [a[0]] + a[1..] == a;
    }
  }

  /** `export_variations`. */
  method ExportVariations(store: Store, pid: int) returns (variations: seq<VariationData>)
    requires pid in store.st.products
    ensures variations == ExportedVariations(store.st, pid)
  {
    var product := store.st.products[pid];
    if !product.IsVariable() {
      return [];
    }
    variations := [];
    var children := product.children;
    var i := 0;
    while i < |children|
      invariant 0 <= i <= |children|
      invariant variations == ExportFrom(store.st, children[..i])
    {
      var vid := children[i];
      assert children[..i + 1][..i] == children[..i];
      if IsVariationId(store.st, vid) {
        variations := Put(variations, vid, store.st.products[vid].attributes);
      }
      i := i + 1;
    }
    assert children[..i] == children;
  }

  /** `create_backup`, with the generated id and the clock reading as parameters. */
  method CreateBackup(store: Store, pid: int, original: seq<(string, AttributeValue)>, backupId: string, now: int) returns (r: Result<string>)
    requires pid in store.st.products
    modifies store
    ensures (r, store.st) == CreatedBackup(old(store.st), pid, original, backupId, now)
  {
    var data := AttributeData(original);
    if data.Throw? {
      return Throw(data.error);
    }
    var variations := ExportVariations(store, pid);
    var backups := StoredBackups(store.st, pid);
    backups := Put(backups, backupId, Backup(now, data.value, variations));
    store.UpdateBackups(pid, Backups(backups));
    return Ok(backupId);
  }

  /** `restore_variations`: `isVariable` is the parent's `is_type('variable')`. */
  method RestoreVariations(store: Store, pid: int, isVariable: bool, variations: seq<VariationData>)
    modifies store
    ensures store.st == RestoredVariations(old(store.st), pid, isVariable, variations)
  {
    var i := 0;
    while i < |variations|
      invariant 0 <= i <= |variations|
      invariant store.st == RestoreFrom(old(store.st), variations[..i])
    {
      var (vid, attributes) := variations[i];
      assert variations[..i + 1][..i] == variations[..i];
      if IsVariationId(store.st, vid) {
        ghost var before := store.st;
        store.SetAttributes(vid, attributes);
        store.Save(vid);
        assert store.st == SaveAttributes(before, vid, attributes);
      }
      i := i + 1;
    }
    assert variations[..i] == variations;
    if isVariable {
      store.Sync(pid);
    }
  }

  /** `restore_backup`. */
  method RestoreBackup(store: Store, pid: int, backupId: string) returns (restored: bool)
    modifies store
    ensures (restored, store.st) == RestoredBackup(old(store.st), pid, backupId)
  {
    var backups := StoredBackups(store.st, pid);
    var data := Get(backups, backupId);
    if data.None? {
      return false;
    }
    if pid !in store.st.products {
      return false;
    }
    var product := store.st.products[pid];
    var attributes := data.value.attributes;
    var restoredAttributes: seq<(string, AttributeValue)> := [];
    var i := 0;
    while i < |attributes|
      invariant 0 <= i <= |attributes|
      invariant restoredAttributes == Reindex(attributes[..i])
    {
      restoredAttributes := restoredAttributes + [(NatToString(i), AttributeObject(attributes[i].1))];
      i := i + 1;
    }
    assert attributes[..i] == attributes;
    ghost var before := store.st;
    store.SetAttributes(pid, restoredAttributes);
    store.Save(pid);
    assert store.st == SaveAttributes(before, pid, restoredAttributes);
    RestoreVariations(store, pid, product.IsVariable(), data.value.variations);
    backups := Remove(backups, backupId);
    store.UpdateBackups(pid, Backups(backups));
    restored := true;
  }
}
