/** Layered configuration: a user's tree of settings laid over a template, and
    the fold of up to eight such layers. */
module Overlay {
  import opened Common

  datatype Toml = Leaf(value: string) | Table(entries: map<string, Toml>)

  const Nothing := Table(map[])

  /** `u` laid over `t`: tables merge key by key, anything else is replaced. */
  function Over(t: Toml, u: Toml): Toml
    decreases t, u
  {
    if t.Table? && u.Table? then
      Table(map k | k in t.entries.Keys + u.entries.Keys ::
              if k !in u.entries then t.entries[k]
              else if k !in t.entries then u.entries[k]
              else Over(t.entries[k], u.entries[k]))
    else u
  }

  /** `m` is merged but for the user keys in `todo`. */
  predicate Merging(t: map<string, Toml>, u: map<string, Toml>, m: map<string, Toml>, todo: set<string>) {
    && m.Keys == t.Keys + (u.Keys - todo)
    && forall k :: k in m ==>
         m[k] == if k !in u || k in todo then t[k] else if k in t then Over(t[k], u[k]) else u[k]
  }

  lemma MergingStarts(t: map<string, Toml>, u: map<string, Toml>)
    ensures Merging(t, u, t, u.Keys)
  {}

  lemma MergingEnds(t: map<string, Toml>, u: map<string, Toml>, m: map<string, Toml>)
    requires Merging(t, u, m, {})
    ensures Table(m) == Over(Table(t), Table(u))
  {
    assert m == Over(Table(t), Table(u)).entries;
  }

  lemma MergingStep(t: map<string, Toml>, u: map<string, Toml>, m: map<string, Toml>, todo: set<string>, key: string)
    requires Merging(t, u, m, todo) && todo <= u.Keys && key in todo
    ensures key in m ==> key in t && m[key] == t[key]
    ensures Merging(t, u, m[key := if key in t then Over(t[key], u[key]) else u[key]], todo - {key})
    ensures key in m <==> key in t
  {}

  /** One user key: tables merge, anything else replaces. */
  method OverlayValue(base: Toml, value: Toml) returns (merged: Toml)
    ensures merged == Over(base, value)
    decreases value, 1
  {
    if base.Table? && value.Table? {
      var entries := OverlayUserConfig(base.entries, value.entries);
      merged := Table(entries);
    } else {
      merged := value;
    }
  }

  /** The merge as it is done: a copy of the template, then one user key after
      another. */
  method OverlayUserConfig(template: map<string, Toml>, user: map<string, Toml>) returns (merged: map<string, Toml>)
    ensures Table(merged) == Over(Table(template), Table(user))
    decreases Table(user), 0
  {
    hide Over, Merging;
    merged := template;
    var todo := user.Keys;
    assert Merging(template, user, merged, todo) by { MergingStarts(template, user); }
    while todo != {}
      invariant todo <= user.Keys
      invariant Merging(template, user, merged, todo)
      decreases |todo|
    {
      var key :| key in todo;
      MergingStep(template, user, merged, todo, key);
      var value := user[key];
      assert value < Table(user);
      if key in merged { value := OverlayValue(merged[key], value); }
      merged := merged[key := value];
      todo := todo - {key};
    }
    MergingEnds(template, user, merged);
  }

  // ---- What a path leads to ---------------------------------------------

  function At(t: Toml, p: seq<string>): Option<Toml>
    decreases |p|
  {
    if p == [] then Some(t)
    else if t.Table? && p[0] in t.entries then At(t.entries[p[0]], p[1..])
    else None
  }

  /** A setting where the path wants to go on. */
  predicate Cuts(t: Toml, p: seq<string>)
    decreases |p|
  {
    p != [] && (t.Leaf? || (p[0] in t.entries && Cuts(t.entries[p[0]], p[1..])))
  }

  /** Every path of the merge: the user's subtree laid over the template's, or
      the only one there is; a user's setting on the way hides the template. */
  lemma {:induction false} OverlayAt(t: Toml, u: Toml, p: seq<string>)
    ensures At(Over(t, u), p) ==
      match (At(t, p), At(u, p))
      case (Some(x), Some(y)) => Some(Over(x, y))
      case (None, Some(y)) => Some(y)
      case (_, None) => if Cuts(u, p) then None else At(t, p)
    decreases |p|
  {
    if p != [] && t.Table? && u.Table? && p[0] in t.entries && p[0] in u.entries {
      OverlayAt(t.entries[p[0]], u.entries[p[0]], p[1..]);
    }
  }

  function Setting(t: Toml, p: seq<string>): Option<string> {
    match At(t, p)
    case Some(Leaf(v)) => Some(v)
    case _ => None
  }

  /** A layer decides a path that it sets, cuts, or makes a table. */
  predicate Decides(u: Toml, p: seq<string>) { At(u, p).Some? || Cuts(u, p) }

  lemma {:induction false} CutIsNoSetting(u: Toml, p: seq<string>)
    requires Cuts(u, p)
    ensures At(u, p).None?
    decreases |p|
  {
    if u.Table? { CutIsNoSetting(u.entries[p[0]], p[1..]); }
  }

  lemma OverlaySetting(t: Toml, u: Toml, p: seq<string>)
    ensures Setting(Over(t, u), p) == if Decides(u, p) then Setting(u, p) else Setting(t, p)
  {
    hide At, Cuts;
    OverlayAt(t, u, p);
    if Cuts(u, p) { CutIsNoSetting(u, p); }
  }

  // ---- Algebra ----------------------------------------------------------

  lemma NothingIsNeutral(t: Toml)
    requires t.Table?
    ensures Over(t, Nothing) == t && Over(Nothing, t) == t
  {
    assert Over(t, Nothing).entries == t.entries;
    assert Over(Nothing, t).entries == t.entries;
  }

  lemma {:induction false} OverlayIsIdempotent(t: Toml, u: Toml)
    ensures Over(Over(t, u), u) == Over(t, u)
    decreases u
  {
    if u.Table? {
      var r := Over(t, u);
      forall k | k in u.entries ensures Over(r.entries[k], u.entries[k]) == r.entries[k] {
        if t.Table? && k in t.entries {
          OverlayIsIdempotent(t.entries[k], u.entries[k]);
        } else {
          OverlayIsIdempotent(u.entries[k], u.entries[k]);
          SelfOverlay(u.entries[k]);
        }
      }
      assert Over(r, u).entries == r.entries;
    }
  }

  lemma {:induction false} SelfOverlay(u: Toml)
    ensures Over(u, u) == u
    decreases u
  {
    if u.Table? {
      forall k | k in u.entries ensures Over(u.entries[k], u.entries[k]) == u.entries[k] { SelfOverlay(u.entries[k]); }
      assert Over(u, u).entries == u.entries;
    }
  }

  /** Every path of `a` is there in `c`, or hidden by a setting of `c`, or ends
      in a setting that `c` makes a table. */
  predicate AddsNothing(a: Toml, c: Toml)
    decreases a
  {
    a.Table? && c.Table? ==>
      forall k :: k in a.entries ==> k in c.entries && AddsNothing(a.entries[k], c.entries[k])
  }

  lemma {:induction false} AddingNothing(a: Toml, c: Toml)
    ensures Over(a, c) == c <==> AddsNothing(a, c)
    decreases a
  {
    if a.Table? && c.Table? {
      var r := Over(a, c);
      forall k | k in a.entries && k in c.entries
        ensures r.entries[k] == c.entries[k] <==> AddsNothing(a.entries[k], c.entries[k])
      { AddingNothing(a.entries[k], c.entries[k]); }
      if AddsNothing(a, c) { assert r.entries == c.entries; }
      if r == c { assert r.entries.Keys == c.entries.Keys; }
    }
  }

  /** No setting of the middle layer stands between tables of the outer two
      that would not have merged to the last one anyway. */
  predicate Associates(a: Toml, b: Toml, c: Toml)
    decreases a
  {
    a.Table? && c.Table? ==>
      if b.Leaf? then AddsNothing(a, c)
      else forall k :: k in a.entries && k in b.entries && k in c.entries ==>
             Associates(a.entries[k], b.entries[k], c.entries[k])
  }

  /** Laying layers over each other is associative exactly then. */
  lemma {:induction false} OverlayAssociates(a: Toml, b: Toml, c: Toml)
    ensures Over(Over(a, b), c) == Over(a, Over(b, c)) <==> Associates(a, b, c)
    decreases a
  {
    if a.Table? && c.Table? {
      if b.Leaf? {
        AddingNothing(a, c);
      } else {
        var l, r := Over(Over(a, b), c), Over(a, Over(b, c));
        assert l.entries.Keys == r.entries.Keys;
        forall k | k in l.entries
          ensures l.entries[k] == r.entries[k] <==>
                  (k in a.entries && k in b.entries && k in c.entries ==>
                     Associates(a.entries[k], b.entries[k], c.entries[k]))
        {
          if k in a.entries && k in b.entries && k in c.entries {
            OverlayAssociates(a.entries[k], b.entries[k], c.entries[k]);
          }
        }
        if Associates(a, b, c) { assert l.entries == r.entries; }
      }
    }
  }

  /** A setting between two tables: laid over each other from the left it wipes
      out the first one's settings, from the right it does not. */
  lemma SettingBetweenTables(k: string, x: string, v: string, w: string)
    ensures
      var a, b, c := Table(map[k := Table(map[x := Leaf(v)])]), Table(map[k := Leaf(w)]), Table(map[k := Nothing]);
      && Setting(Over(Over(a, b), c), [k, x]) == None
      && Setting(Over(a, Over(b, c)), [k, x]) == Some(v)
  {
    var a, b, c := Table(map[k := Table(map[x := Leaf(v)])]), Table(map[k := Leaf(w)]), Table(map[k := Nothing]);
    var inner := a.entries[k];
    assert Over(a, b).entries[k] == Over(inner, Leaf(w)) == Leaf(w);
    assert Over(Over(a, b), c).entries[k] == Over(Leaf(w), Nothing) == Nothing;
    assert Over(b, c).entries[k] == Over(Leaf(w), Nothing) == Nothing;
    NothingIsNeutral(inner);
    assert Over(a, Over(b, c)).entries[k] == Over(inner, Nothing) == inner;
    assert [k, x][1..] == [x] && [x][1..] == [];
    assert At(inner, [x]) == At(Leaf(v), []) && At(Nothing, [x]) == None;
  }

  /** No path is a setting in one of two trees and a table in the other. */
  predicate Agree(a: Toml, b: Toml)
    decreases a
  {
    a.Table? == b.Table?
    && (a.Table? ==> forall k :: k in a.entries && k in b.entries ==> Agree(a.entries[k], b.entries[k]))
  }

  lemma {:induction false} AgreeingLayersAssociate(a: Toml, b: Toml, c: Toml)
    requires Agree(a, b)
    ensures Associates(a, b, c)
    decreases a
  {
    if a.Table? && c.Table? {
      forall k | k in a.entries && k in b.entries && k in c.entries
        ensures Associates(a.entries[k], b.entries[k], c.entries[k])
      { AgreeingLayersAssociate(a.entries[k], b.entries[k], c.entries[k]); }
    }
  }

  // ---- Layers -----------------------------------------------------------

  function Fold(layers: seq<Option<Toml>>): Toml {
    if layers == [] then Nothing
    else
      var n := |layers| - 1;
      if layers[n].None? then Fold(layers[..n]) else Over(Fold(layers[..n]), layers[n].value)
  }

  /** An existing file is laid over what there is, or is all there is. */
  method OverlayIfExists(base: map<string, Toml>, file: Option<map<string, Toml>>) returns (raw: map<string, Toml>)
    ensures Table(raw) == if file.None? then Table(base) else Over(Table(base), Table(file.value))
  {
    if file.None? { return base; }
    if base == map[] {
      NothingIsNeutral(Table(file.value));
      return file.value;
    }
    raw := OverlayUserConfig(base, file.value);
  }

  function Trees(files: seq<Option<map<string, Toml>>>): (r: seq<Option<Toml>>)
    ensures |r| == |files|
    ensures forall k :: 0 <= k < |r| ==> r[k] == if files[k].None? then None else Some(Table(files[k].value))
  {
    if files == [] then []
    else [if files[0].None? then None else Some(Table(files[0].value))] + Trees(files[1..])
  }

  method LoadUpstreamToml(files: seq<Option<map<string, Toml>>>) returns (raw: map<string, Toml>)
    ensures Table(raw) == Fold(Trees(files))
  {
    raw := map[];
    ghost var layers := Trees(files);
    for k := 0 to |files|
      invariant Table(raw) == Fold(layers[..k])
    {
      assert layers[..k + 1][..k] == layers[..k];
      raw := OverlayIfExists(raw, files[k]);
    }
    assert layers[..|files|] == layers;
  }

  /** The last of the layers that decides a path, or -1. */
  function LastDeciding(layers: seq<Option<Toml>>, p: seq<string>): (i: int)
    ensures -1 <= i < |layers|
    ensures i >= 0 ==> layers[i].Some? && Decides(layers[i].value, p)
    ensures forall k :: i < k < |layers| && layers[k].Some? ==> !Decides(layers[k].value, p)
  {
    if layers == [] then -1
    else
      var n := |layers| - 1;
      if layers[n].Some? && Decides(layers[n].value, p) then n else LastDeciding(layers[..n], p)
  }

  /** Every setting comes from the last layer that decides its path. */
  lemma {:induction false} LastLayerWins(layers: seq<Option<Toml>>, p: seq<string>)
    requires p != []
    ensures
      var i := LastDeciding(layers, p);
      Setting(Fold(layers), p) == if i < 0 then None else Setting(layers[i].value, p)
  {
    hide Decides;
    if layers != [] {
      var n := |layers| - 1;
      LastLayerWins(layers[..n], p);
      if layers[n].Some? { OverlaySetting(Fold(layers[..n]), layers[n].value, p); }
    }
  }
}
