/**
 * `Templates_Service`: mapping templates stored by local attribute label
 * in the `local2global_attribute_templates` option, looked up by the
 * trimmed, ASCII-lower-cased label.
 */
module Templates {
  import opened PhpCore
  import opened PhpString
  import opened PhpArray
  import opened Host

  /** `normalise_label`: `strtolower(trim($label))`. */
  function NormaliseLabel(name: string): string
  {
    Lower(Trim(name))
  }

  /** `normalise_label` is idempotent. */
  lemma NormaliseLabelIdempotent(name: string)
    ensures NormaliseLabel(NormaliseLabel(name)) == NormaliseLabel(name)
  {
    var t := Trim(name);
    var n := Lower(t);
    assert TrimmedBy(n, IsTrimChar) by {
      if n != [] {
        assert n[0] == LowerChar(t[0]) && n[|n| - 1] == LowerChar(t[|t| - 1]);
      }
    }
    LowerIsLower(t);
    LowerIsLower(n);
  }

  /** `get_templates`: the stored option, or `[]` when it is not an array. */
  function GetTemplates(h: HostState): seq<(string, TemplateConfig)>
  {
    match h.templates
    case TemplatesNotArray => []
    case Templates(entries) => entries
  }

  /** A stored label that normalises to `key`. */
  predicate LabelMatches(e: (string, TemplateConfig), key: string)
  {
    NormaliseLabel(e.0) == key
  }

  /** The search `get_template_for_label` runs: labels normalising to `key`. */
  function MatchesKey(key: string): ((string, TemplateConfig)) -> bool
  {
    (e: (string, TemplateConfig)) => LabelMatches(e, key)
  }

  /** `get_template_for_label`: the config of the first stored label, in stored order, that normalises like `name`. */
  function TemplateForLabel(templates: seq<(string, TemplateConfig)>, name: string): Option<TemplateConfig>
  {
    var i := FirstWhere(templates, MatchesKey(NormaliseLabel(name)));
    if i.Some? then Some(templates[i.value].1) else None
  }

  /**
   * The lookup finds the config at the first position whose label
   * normalises like the query, and `null` exactly when no label does.
   */
  lemma TemplateForLabelFirstMatch(templates: seq<(string, TemplateConfig)>, name: string)
    ensures var r := TemplateForLabel(templates, name);
      (r.None? <==> forall j :: 0 <= j < |templates| ==> NormaliseLabel(templates[j].0) != NormaliseLabel(name)) &&
      (r.Some? ==> exists i :: 0 <= i < |templates| && templates[i].1 == r.value &&
                    NormaliseLabel(templates[i].0) == NormaliseLabel(name) &&
                    forall j :: 0 <= j < i ==> NormaliseLabel(templates[j].0) != NormaliseLabel(name))
  {
    var key := NormaliseLabel(name);
    var i := FirstWhere(templates, MatchesKey(key));
    if i.Some? {
      assert MatchesKey(key)(templates[i.value]);
    } else {
      assert forall j :: 0 <= j < |templates| ==> !MatchesKey(key)(templates[j]);
    }
  }

  /** The templates after `save_template($label, $config)`. */
  function SavedTemplates(h: HostState, name: string, config: TemplateConfig): seq<(string, TemplateConfig)>
  {
    Put(GetTemplates(h), name, config)
  }

  /** `save_template` stores the config under its label and leaves every other label untouched. */
  lemma SaveTemplateEffect(h: HostState, name: string, config: TemplateConfig)
    ensures Get(SavedTemplates(h, name, config), name) == Some(config)
    ensures forall l :: l != name ==> Get(SavedTemplates(h, name, config), l) == Get(GetTemplates(h), l)
  {
  }

  /**
   * Saving and then looking up the same label gives the saved config,
   * unless another stored label normalises to the same key.
   */
  lemma {:induction false} SaveThenLookup(h: HostState, name: string, config: TemplateConfig)
    requires forall j :: 0 <= j < |GetTemplates(h)| && GetTemplates(h)[j].0 != name ==>
               NormaliseLabel(GetTemplates(h)[j].0) != NormaliseLabel(name)
    ensures TemplateForLabel(SavedTemplates(h, name, config), name) == Some(config)
  {
    var t := SavedTemplates(h, name, config);
    var key := NormaliseLabel(name);
    var k := Find(t, name).value;
    assert t[k] == (name, config);
    var i := FirstWhere(t, MatchesKey(key));
    assert MatchesKey(key)(t[k]);
    assert i.Some? && i.value <= k;
    SavedLabelsFromStored(h, name, config, i.value);
    assert t[i.value].0 == name;
  }

  /** Every label of the saved templates other than the saved one was stored before, at the same position. */
  lemma SavedLabelsFromStored(h: HostState, name: string, config: TemplateConfig, i: nat)
    requires i < |SavedTemplates(h, name, config)|
    ensures var t := SavedTemplates(h, name, config);
      t[i].0 == name || (i < |GetTemplates(h)| && t[i] == GetTemplates(h)[i])
  {
    var a := GetTemplates(h);
    var t := SavedTemplates(h, name, config);
    if HasKey(a, name) {
      assert Keys(t) == Keys(a);
      assert t[i].0 == Keys(t)[i] == Keys(a)[i] == a[i].0;
      var f := Find(a, name).value;
      assert t == a[f := (name, config)];
    } else {
      assert t == a + [(name, config)];
    }
  }

  /**
   * A stored `"Cor"` shadows a later `save_template("cor ", ...)`: looking
   * up `"cor "` afterwards still returns the config stored under `"Cor"`.
   */
  lemma SaveShadowedByEarlierLabel(stored: TemplateConfig, config: TemplateConfig, h: HostState)
    requires h.templates == Templates([("Cor", stored)])
    ensures TemplateForLabel(SavedTemplates(h, "cor ", config), "cor ") == Some(stored)
  {
    var t := SavedTemplates(h, "cor ", config);
    assert t == [("Cor", stored), ("cor ", config)];
    CorPieces();
    assert MatchesKey(NormaliseLabel("cor "))(t[0]);
  }

  lemma CorPieces()
    ensures NormaliseLabel("Cor") == "cor"
    ensures NormaliseLabel("cor ") == "cor"
  {
    TrimCor();
    TrimCorSpace();
    LowerCor();
  }

  lemma TrimCor()
    ensures Trim("Cor") == "Cor"
  {
    assert TrimmedBy("Cor", IsTrimChar);
  }

  lemma TrimCorSpace()
    ensures Trim("cor ") == "cor"
  {
    assert LeadingCount("cor ", IsTrimChar) == 0;
    assert "cor "[0..] == "cor ";
    assert "cor "[..3] == "cor";
    assert TrailingCount("cor", IsTrimChar) == 0;
    assert TrailingCount("cor ", IsTrimChar) == 1;
    assert "cor "[..4 - 1] == "cor";
  }

  lemma LowerCor()
    ensures Lower("Cor") == "cor" && Lower("cor") == "cor"
  {
    assert Lower("Cor")[0] == 'c';
    assert IsLower("cor");
    LowerIsLower("cor");
  }

  /** `save_template`: read the templates, set `$templates[$label] = $config`, write them back. */
  method SaveTemplate(store: Store, name: string, config: TemplateConfig)
    modifies store
    ensures store.st == old(store.st).(templates := Templates(SavedTemplates(old(store.st), name, config)))
  {
    var templates := GetTemplates(store.st);
    templates := Put(templates, name, config);
    store.UpdateTemplates(Templates(templates));
  }
}
