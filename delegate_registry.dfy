/**
 * The registry of device delegates, keyed by upper-cased device model, so a
 * lookup ignores letter case. Registering a model that is already known is
 * an error that stops the registration at that model.
 */
module DelegateRegistry {
  import opened Common
  import opened Strings

  /** The delegate classes that have real setup logic. */
  datatype DelegateKind = ShellyPlusI4Delegate | ShellyPlus2PmDelegate | ShellyPro2PmDelegate

  /** Models, once upper-cased, that are neither registered yet nor repeated. */
  ghost predicate Unclaimed(m: map<string, DelegateKind>, models: seq<string>)
  {
    && (forall i | 0 <= i < |models| :: ToUpper(models[i]) !in m)
    && (forall i, j | 0 <= i < j < |models| :: ToUpper(models[i]) != ToUpper(models[j]))
  }

  /** The upper-cased models. */
  function Uppers(models: seq<string>): set<string>
  {
    set x | x in models :: ToUpper(x)
  }

  /**
   * The registry after registering `d` for `models` in order, and the first
   * model found already registered, at which registration stopped.
   */
  function Registered(m: map<string, DelegateKind>, d: DelegateKind, models: seq<string>): (r: (map<string, DelegateKind>, Option<string>))
    ensures forall k | k in m :: k in r.0 && r.0[k] == m[k]
    ensures forall k | k in r.0 && k !in m :: r.0[k] == d
    ensures r.0.Keys <= m.Keys + Uppers(models)
    ensures r.1.None? <==> Unclaimed(m, models)
    ensures r.1.None? ==> r.0.Keys == m.Keys + Uppers(models)
    ensures r.1.Some? ==> r.1.value in models && ToUpper(r.1.value) in r.0
    decreases |models|
  {
    if models == [] then (m, None)
    else if ToUpper(models[0]) in m then (m, Some(models[0]))
    else
      UnclaimedStep(m, d, models);
      RegisteredStep(m, d, models);
      Registered(m[ToUpper(models[0]) := d], d, models[1..])
  }

  /** One step of registration: the first model either stops it or is added. */
  lemma RegisteredFirst(m: map<string, DelegateKind>, d: DelegateKind, models: seq<string>)
    requires models != []
    ensures ToUpper(models[0]) in m ==> Registered(m, d, models) == (m, Some(models[0]))
    ensures ToUpper(models[0]) !in m ==> Registered(m, d, models) == Registered(m[ToUpper(models[0]) := d], d, models[1..])
  {
  }

  /** Registering the first model keeps the rest unclaimed exactly when all were. */
  lemma UnclaimedStep(m: map<string, DelegateKind>, d: DelegateKind, models: seq<string>)
    requires models != [] && ToUpper(models[0]) !in m
    ensures Unclaimed(m, models) <==> Unclaimed(m[ToUpper(models[0]) := d], models[1..])
  {
    var m' := m[ToUpper(models[0]) := d];
    if Unclaimed(m', models[1..]) {
      forall i, j | 0 <= i < j < |models| ensures ToUpper(models[i]) != ToUpper(models[j]) {
        assert models[j] == models[1..][j - 1];
        if i > 0 {
          assert models[i] == models[1..][i - 1];
        }
      }
      forall i | 0 <= i < |models| ensures ToUpper(models[i]) !in m {
        if i > 0 {
          assert models[i] == models[1..][i - 1];
        }
      }
    }
    if Unclaimed(m, models) {
      forall i | 0 <= i < |models[1..]| ensures ToUpper(models[1..][i]) !in m' {
        assert models[1..][i] == models[i + 1];
      }
    }
  }

  /** The keys the first model and the rest contribute are the keys all models contribute. */
  lemma RegisteredStep(m: map<string, DelegateKind>, d: DelegateKind, models: seq<string>)
    requires models != []
    ensures m[ToUpper(models[0]) := d].Keys + Uppers(models[1..])
      == m.Keys + Uppers(models)
  {
    assert forall x | x in models :: x == models[0] || x in models[1..];
  }

  /** A model registered after a successful registration is found under any letter case of the name. */
  lemma RegisteredFindsEachModel(m: map<string, DelegateKind>, d: DelegateKind, models: seq<string>, i: nat, query: string)
    requires Registered(m, d, models).1.None?
    requires i < |models| && ToUpper(query) == ToUpper(models[i])
    ensures ToUpper(query) in Registered(m, d, models).0 && Registered(m, d, models).0[ToUpper(query)] == d
  {
    assert models[i] in models;
  }

  class Registry {
    /** The delegate registered per upper-cased model. */
    var delegates: map<string, DelegateKind>

    constructor ()
      ensures delegates == map[]
    {
      delegates := map[];
    }

    /**
     * `registerDelegate(delegate, ...deviceClasses)`: registers each model in
     * turn; at the first model already registered it fails, keeping the
     * models registered before it.
     */
    method RegisterDelegate(d: DelegateKind, models: seq<string>) returns (r: Outcome)
      modifies this
      ensures delegates == Registered(old(delegates), d, models).0
      ensures r.Pass? <==> Registered(old(delegates), d, models).1.None?
      ensures r.Fail? ==> r.error == DuplicateDelegate(Registered(old(delegates), d, models).1.value)
    {
      for k := 0 to |models|
        invariant Registered(old(delegates), d, models) == Registered(delegates, d, models[k..])
      {
        var model := ToUpper(models[k]);
        RegisteredFirst(delegates, d, models[k..]);
        assert models[k..][0] == models[k] && models[k..][1..] == models[k + 1..];
        if model in delegates {
          return Fail(DuplicateDelegate(models[k]));
        }
        delegates := delegates[model := d];
      }
      return Pass;
    }

    /** `getDelegate(model)`: the delegate registered for the model in any letter case. */
    function GetDelegate(model: string): (r: Option<DelegateKind>)
      reads this
      ensures r.Some? <==> ToUpper(model) in delegates
      ensures r.Some? ==> r.value == delegates[ToUpper(model)]
    {
      if ToUpper(model) in delegates then Some(delegates[ToUpper(model)]) else None
    }

    /** Upper- and lower-casing a model does not change what it finds. */
    lemma GetDelegateIgnoresCase(model: string)
      ensures GetDelegate(ToUpper(model)) == GetDelegate(model)
      ensures GetDelegate(ToLower(model)) == GetDelegate(model)
    {
      ToUpperIdempotent(model);
      ToUpperIgnoresCase(model);
    }

    /**
     * The module-level registrations of the three delegates with setup
     * logic. Into an empty registry they all succeed, and each model then
     * finds its delegate.
     */
    method RegisterBuiltIns() returns (r: Outcome)
      modifies this
      ensures old(delegates) == map[] ==> r == Pass
      ensures old(delegates) == map[] ==>
        delegates.Keys == Uppers(PlusI4Models + Plus2PmModels + Pro2PmModels)
      ensures old(delegates) == map[] ==>
        && (forall x | x in PlusI4Models :: GetDelegate(x) == Some(ShellyPlusI4Delegate))
        && (forall x | x in Plus2PmModels :: GetDelegate(x) == Some(ShellyPlus2PmDelegate))
        && (forall x | x in Pro2PmModels :: GetDelegate(x) == Some(ShellyPro2PmDelegate))
    {
      ghost var m0 := delegates;
      r := RegisterDelegate(ShellyPlusI4Delegate, PlusI4Models);
      if r.Fail? {
        return;
      }
      r := RegisterDelegate(ShellyPlus2PmDelegate, Plus2PmModels);
      if r.Fail? {
        return;
      }
      r := RegisterDelegate(ShellyPro2PmDelegate, Pro2PmModels);
      if m0 == map[] {
        BuiltInModelsDistinct(PlusI4Models, Plus2PmModels, Pro2PmModels);
        ThreeRegistrationsKeys(PlusI4Models, Plus2PmModels, Pro2PmModels);
        ThreeRegistrationsLookups(PlusI4Models, Plus2PmModels, Pro2PmModels);
      }
    }
  }

  /** The models each delegate with setup logic is registered for. */
  const PlusI4Models: seq<string> := ["ShellyPlusI4"]
  const Plus2PmModels: seq<string> := ["ShellyPlus2Pm", "ShellyPlus2PmRev1"]
  const Pro2PmModels: seq<string> := ["ShellyPro2Pm", "ShellyPro2PmRev1", "ShellyPro2PmRev2"]

  /**
   * Three registrations in turn into an empty registry, each of models
   * unclaimed at its turn, all succeed and register exactly their models.
   */
  lemma ThreeRegistrationsKeys(i4: seq<string>, plus: seq<string>, pro: seq<string>)
    requires Unclaimed(map[], i4)
    requires Unclaimed(Registered(map[], ShellyPlusI4Delegate, i4).0, plus)
    requires Unclaimed(Registered(Registered(map[], ShellyPlusI4Delegate, i4).0, ShellyPlus2PmDelegate, plus).0, pro)
    ensures var r1 := Registered(map[], ShellyPlusI4Delegate, i4);
      var r2 := Registered(r1.0, ShellyPlus2PmDelegate, plus);
      var r3 := Registered(r2.0, ShellyPro2PmDelegate, pro);
      && r1.1.None? && r2.1.None? && r3.1.None?
      && r3.0.Keys == Uppers(i4 + plus + pro)
  {
    var r1 := Registered(map[], ShellyPlusI4Delegate, i4);
    var r2 := Registered(r1.0, ShellyPlus2PmDelegate, plus);
    var r3 := Registered(r2.0, ShellyPro2PmDelegate, pro);
    calc {
      r3.0.Keys;
      r2.0.Keys + Uppers(pro);
      r1.0.Keys + Uppers(plus) + Uppers(pro);
      Uppers(i4) + Uppers(plus) + Uppers(pro);
      { UnionOfImages(i4, plus, pro); }
      Uppers(i4 + plus + pro);
    }
  }

  /**
   * After the same three registrations each model finds the delegate it
   * was registered for.
   */
  lemma ThreeRegistrationsLookups(i4: seq<string>, plus: seq<string>, pro: seq<string>)
    requires Unclaimed(map[], i4)
    requires Unclaimed(Registered(map[], ShellyPlusI4Delegate, i4).0, plus)
    requires Unclaimed(Registered(Registered(map[], ShellyPlusI4Delegate, i4).0, ShellyPlus2PmDelegate, plus).0, pro)
    ensures var r1 := Registered(map[], ShellyPlusI4Delegate, i4);
      var r2 := Registered(r1.0, ShellyPlus2PmDelegate, plus);
      var r3 := Registered(r2.0, ShellyPro2PmDelegate, pro);
      && (forall x | x in i4 :: ToUpper(x) in r3.0 && r3.0[ToUpper(x)] == ShellyPlusI4Delegate)
      && (forall x | x in plus :: ToUpper(x) in r3.0 && r3.0[ToUpper(x)] == ShellyPlus2PmDelegate)
      && (forall x | x in pro :: ToUpper(x) in r3.0 && r3.0[ToUpper(x)] == ShellyPro2PmDelegate)
  {
    var r1 := Registered(map[], ShellyPlusI4Delegate, i4);
    var r2 := Registered(r1.0, ShellyPlus2PmDelegate, plus);
    RegisteredMapsEach(map[], ShellyPlusI4Delegate, i4);
    RegisteredMapsEach(r1.0, ShellyPlus2PmDelegate, plus);
    RegisteredMapsEach(r2.0, ShellyPro2PmDelegate, pro);
  }

  /** A registration of unclaimed models keeps every earlier entry and maps each model to the delegate. */
  lemma RegisteredMapsEach(m: map<string, DelegateKind>, d: DelegateKind, models: seq<string>)
    requires Unclaimed(m, models)
    ensures var r := Registered(m, d, models).0;
      && (forall k | k in m :: k in r && r[k] == m[k])
      && (forall x | x in models :: ToUpper(x) in r && r[ToUpper(x)] == d)
  {
    var r := Registered(m, d, models).0;
    forall x | x in models ensures ToUpper(x) in r && r[ToUpper(x)] == d {
      assert ToUpper(x) in Uppers(models);
    }
  }

  /** The upper-cased names of a concatenation are the union of each part's. */
  lemma UnionOfImages(a: seq<string>, b: seq<string>, c: seq<string>)
    ensures Uppers(a) + Uppers(b) + Uppers(c)
      == Uppers(a + b + c)
  {
    assert forall x | x in a + b + c :: x in a || x in b || x in c;
  }

  /** Three models, upper-cased, that are distinct and not yet registered. */
  lemma UnclaimedThree(m: map<string, DelegateKind>, x: string, y: string, z: string)
    requires ToUpper(x) !in m && ToUpper(y) !in m && ToUpper(z) !in m
    requires ToUpper(x) != ToUpper(y) && ToUpper(x) != ToUpper(z) && ToUpper(y) != ToUpper(z)
    ensures Unclaimed(m, [x, y, z])
  {
  }

  /**
   * The built-in models, registered in turn into an empty registry, are
   * each unclaimed when their turn comes.
   */
  lemma BuiltInModelsDistinct(i4: seq<string>, plus: seq<string>, pro: seq<string>)
    requires i4 == PlusI4Models && plus == Plus2PmModels && pro == Pro2PmModels
    ensures Unclaimed(map[], i4)
    ensures Unclaimed(Registered(map[], ShellyPlusI4Delegate, i4).0, plus)
    ensures var m1 := Registered(map[], ShellyPlusI4Delegate, i4).0;
      Unclaimed(Registered(m1, ShellyPlus2PmDelegate, plus).0, pro)
  {
    var m1 := Registered(map[], ShellyPlusI4Delegate, i4).0;
    assert m1.Keys == {ToUpper(i4[0])};
    assert Unclaimed(m1, plus);
    var m2 := Registered(m1, ShellyPlus2PmDelegate, plus).0;
    assert m2.Keys == {ToUpper(i4[0]), ToUpper(plus[0]), ToUpper(plus[1])};
    ProDistinct(i4[0], plus[0], plus[1], pro[0], pro[1], pro[2]);
    UnclaimedThree(m2, pro[0], pro[1], pro[2]);
    assert pro == [pro[0], pro[1], pro[2]];
  }

  /** The Pro 2PM models differ, upper-cased, from each other and from the models registered before them. */
  lemma ProDistinct(i4: string, p: string, pr1: string, q: string, qr1: string, qr2: string)
    requires |i4| == 12 && |p| == 13 && |pr1| == 17 && |q| == 12 && |qr1| == 16 && |qr2| == 16
    requires i4[7] == 'l' && q[7] == 'r' && qr1[15] == '1' && qr2[15] == '2'
    ensures ToUpper(q) !in {ToUpper(i4), ToUpper(p), ToUpper(pr1)}
    ensures ToUpper(qr1) !in {ToUpper(i4), ToUpper(p), ToUpper(pr1)}
    ensures ToUpper(qr2) !in {ToUpper(i4), ToUpper(p), ToUpper(pr1)}
    ensures ToUpper(q) != ToUpper(qr1) && ToUpper(q) != ToUpper(qr2) && ToUpper(qr1) != ToUpper(qr2)
  {
    assert ToUpper(q)[7] != ToUpper(i4)[7];
    assert ToUpper(qr1)[15] != ToUpper(qr2)[15];
  }
}
