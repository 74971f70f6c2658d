/**
 * The phase registry (`js/phase_core.js`): every phase script hands a descriptor object to
 * `PhaseRegistry.register`, which checks that the four required fields are truthy and, if so,
 * appends a copy stamped with `registeredAt`; `getAll` and `getById` read the registry back.
 *
 * A descriptor is a JavaScript object, modelled as a map from property names to values; a
 * property that is absent reads as `undefined`. The ISO time stamp is a parameter.
 */
module PhaseRegistry {
  import opened JsText

  /** The JavaScript values a descriptor property can hold. */
  datatype Value = Null | Bool(b: bool) | Num(x: real) | Str(s: string) | Obj

  type Phase = map<string, Value>

  /** JavaScript truthiness: `null`, `false`, `0` and `""` are falsy. */
  predicate Truthy(v: Value) {
    match v
    case Null => false
    case Bool(b) => b
    case Num(x) => x != 0.0
    case Str(s) => s != ""
    case Obj => true
  }

  /** `!!phase[field]`: an absent property is `undefined`, which is falsy. */
  predicate Present(phase: Phase, field: string) {
    field in phase && Truthy(phase[field])
  }

  const Required: seq<string> := ["id", "name", "status", "description"]

  const StampField: string := "registeredAt"

  /** The first of `fields[i..]` that is not present: the field `validatePhase` throws about. */
  function FirstMissing(phase: Phase, fields: seq<string>, i: nat): Option<string>
    requires i <= |fields|
    decreases |fields| - i
  {
    if i == |fields| then None
    else if !Present(phase, fields[i]) then Some(fields[i])
    else FirstMissing(phase, fields, i + 1)
  }

  /** `FirstMissing` finds nothing exactly when every field is present, and otherwise names the first absent one. */
  lemma {:induction false} FirstMissingMeaning(phase: Phase, fields: seq<string>, i: nat)
    requires i <= |fields|
    ensures FirstMissing(phase, fields, i).None? <==> forall j :: i <= j < |fields| ==> Present(phase, fields[j])
    ensures FirstMissing(phase, fields, i).Some? ==>
              exists k :: i <= k < |fields| && fields[k] == FirstMissing(phase, fields, i).value &&
                          !Present(phase, fields[k]) &&
                          forall j :: i <= j < k ==> Present(phase, fields[j])
    decreases |fields| - i
  {
    if i < |fields| {
      FirstMissingMeaning(phase, fields, i + 1);
      if !Present(phase, fields[i]) {
        assert fields[i] == FirstMissing(phase, fields, i).value;
      } else if FirstMissing(phase, fields, i).Some? {
        var k :| i + 1 <= k < |fields| && fields[k] == FirstMissing(phase, fields, i).value &&
                 !Present(phase, fields[k]) &&
                 forall j :: i + 1 <= j < k ==> Present(phase, fields[j]);
        assert i <= k < |fields|;
      }
    }
  }

  /** A descriptor that `validatePhase` accepts. */
  predicate IsValid(phase: Phase) {
    FirstMissing(phase, Required, 0).None?
  }

  /** `validatePhase` accepts exactly the descriptors whose id, name, status and description are all truthy. */
  lemma ValidIffRequiredTruthy(phase: Phase)
    ensures IsValid(phase) <==>
              Present(phase, "id") && Present(phase, "name") &&
              Present(phase, "status") && Present(phase, "description")
  {
    FirstMissingMeaning(phase, Required, 0);
    if Present(phase, "id") && Present(phase, "name") && Present(phase, "status") && Present(phase, "description") {
      forall j | 0 <= j < |Required| ensures Present(phase, Required[j]) {
      }
    } else {
      assert !Present(phase, Required[0]) || !Present(phase, Required[1]) ||
             !Present(phase, Required[2]) || !Present(phase, Required[3]);
    }
  }

  /** The copy pushed onto the registry: `{...phase, registeredAt: stamp}`. */
  function Stamped(phase: Phase, stamp: string): (e: Phase)
    ensures StampField in e && e[StampField] == Str(stamp)
    ensures forall f :: f in phase && f != StampField ==> f in e && e[f] == phase[f]
    ensures e.Keys == phase.Keys + {StampField}
  {
    phase[StampField := Str(stamp)]
  }

  /** `registerPhase(phase)`: an invalid descriptor is logged and dropped. */
  function Register(registry: seq<Phase>, phase: Phase, stamp: string): seq<Phase> {
    if IsValid(phase) then registry + [Stamped(phase, stamp)] else registry
  }

  /** `p.id === id` */
  predicate HasId(p: Phase, id: Value) {
    "id" in p && p["id"] == id
  }

  /** `registry.find(p => p.id === id)`: the first entry whose id is strictly equal to `id`. */
  function FindById(registry: seq<Phase>, id: Value): (r: Option<Phase>)
    ensures r.Some? <==> exists k :: 0 <= k < |registry| && HasId(registry[k], id)
    ensures r.Some? ==> exists k :: 0 <= k < |registry| && registry[k] == r.value && HasId(registry[k], id) &&
                                   forall j :: 0 <= j < k ==> !HasId(registry[j], id)
  {
    if registry == [] then None
    else if HasId(registry[0], id) then Some(registry[0])
    else
      var r := FindById(registry[1..], id);
      if r.Some? then
        var k :| 0 <= k < |registry[1..]| && registry[1..][k] == r.value && HasId(registry[1..][k], id) &&
                 forall j :: 0 <= j < k ==> !HasId(registry[1..][j], id);
        assert registry[k + 1] == registry[1..][k];
        r
      else r
  }

  // ---------------------------------------------------------------------------------------
  // Properties

  /** A rejected descriptor leaves the registry as it was. */
  lemma InvalidIsDropped(registry: seq<Phase>, phase: Phase, stamp: string)
    requires !(Present(phase, "id") && Present(phase, "name") &&
               Present(phase, "status") && Present(phase, "description"))
    ensures Register(registry, phase, stamp) == registry
  {
    ValidIffRequiredTruthy(phase);
  }

  /**
   * An accepted descriptor adds exactly one entry at the end, earlier entries stay in order,
   * and the new entry has every field of the descriptor plus the time stamp.
   */
  lemma ValidIsAppended(registry: seq<Phase>, phase: Phase, stamp: string)
    requires Present(phase, "id") && Present(phase, "name") &&
             Present(phase, "status") && Present(phase, "description")
    ensures var r := Register(registry, phase, stamp);
            && |r| == |registry| + 1 && r[..|registry|] == registry
            && r[|registry|][StampField] == Str(stamp)
            && forall f :: f in phase && f != StampField ==> r[|registry|][f] == phase[f]
  {
    ValidIffRequiredTruthy(phase);
    assert Register(registry, phase, stamp)[..|registry|] == registry;
  }

  /** Every entry of the registry passed validation. */
  ghost predicate AllValid(registry: seq<Phase>) {
    forall k :: 0 <= k < |registry| ==> IsValid(registry[k])
  }

  /** Stamping never clears a required field, so registration keeps every entry valid. */
  lemma RegisterKeepsAllValid(registry: seq<Phase>, phase: Phase, stamp: string)
    requires AllValid(registry)
    ensures AllValid(Register(registry, phase, stamp))
  {
    if IsValid(phase) {
      ValidIffRequiredTruthy(phase);
      ValidIffRequiredTruthy(Stamped(phase, stamp));
    }
  }

  /** The registry after a run of `register` calls, each with its own time stamp. */
  function RegisterAll(registry: seq<Phase>, phases: seq<(Phase, string)>): seq<Phase>
  {
    if phases == [] then registry
    else
      var (p, t) := phases[|phases| - 1];
      Register(RegisterAll(registry, phases[..|phases| - 1]), p, t)
  }

  /** Nothing ever leaves the registry: the registry before a run of registrations is a prefix of the one after. */
  lemma {:induction false} AppendOnly(registry: seq<Phase>, phases: seq<(Phase, string)>)
    ensures var r := RegisterAll(registry, phases);
            |registry| <= |r| <= |registry| + |phases| && r[..|registry|] == registry
  {
    if phases != [] {
      var init := phases[..|phases| - 1];
      AppendOnly(registry, init);
      var mid := RegisterAll(registry, init);
      var (p, t) := phases[|phases| - 1];
      assert RegisterAll(registry, phases) == Register(mid, p, t);
      if IsValid(p) {
        assert (mid + [Stamped(p, t)])[..|registry|] == mid[..|registry|];
      }
    } else {
      assert registry[..|registry|] == registry;
    }
  }

  /** Duplicate ids are accepted, and `getById` then finds the older entry. */
  lemma DuplicateIdFindsOlder(registry: seq<Phase>, phase: Phase, stamp: string)
    requires IsValid(phase)
    requires FindById(registry, phase["id"]).Some?
    ensures |Register(registry, phase, stamp)| == |registry| + 1
    ensures FindById(Register(registry, phase, stamp), phase["id"]) == FindById(registry, phase["id"])
  {
    ValidIffRequiredTruthy(phase);
    FindPrefix(registry, [Stamped(phase, stamp)], phase["id"]);
  }

  /** A match in a prefix is found before anything appended. */
  lemma {:induction false} FindPrefix(a: seq<Phase>, b: seq<Phase>, id: Value)
    requires FindById(a, id).Some?
    ensures FindById(a + b, id) == FindById(a, id)
  {
    assert a != [];
    assert (a + b)[0] == a[0];
    if !HasId(a[0], id) {
      assert (a + b)[1..] == a[1..] + b;
      FindPrefix(a[1..], b, id);
    }
  }

  // ---------------------------------------------------------------------------------------
  // The registry object

  class Registry {
    var entries: seq<Phase>

    ghost predicate Valid()
      reads this
    {
      AllValid(entries)
    }

    constructor ()
      ensures Valid() && entries == []
    {
      entries := [];
    }

    /** `validatePhase(phase)`: `None` when it returns true, `Some(field)` for the field it throws about. */
    static method ValidatePhase(phase: Phase) returns (missing: Option<string>)
      ensures missing == FirstMissing(phase, Required, 0)
      ensures missing.None? <==> IsValid(phase)
    {
      var i := 0;
      while i < |Required|
        invariant 0 <= i <= |Required|
        invariant FirstMissing(phase, Required, 0) == FirstMissing(phase, Required, i)
      {
        var field := Required[i];
        if !(field in phase && Truthy(phase[field])) {
          return Some(field);
        }
        i := i + 1;
      }
      return None;
    }

    /** `registerPhase(phase)` with the time stamp `stamp`; returns whether the phase was registered. */
    method RegisterPhase(phase: Phase, stamp: string) returns (registered: bool)
      requires Valid()
      modifies this
      ensures Valid() && entries == Register(old(entries), phase, stamp)
      ensures registered <==> |entries| == |old(entries)| + 1
    {
      RegisterKeepsAllValid(entries, phase, stamp);
      var missing := ValidatePhase(phase);
      if missing.Some? {
        return false;
      }
      entries := entries + [phase[StampField := Str(stamp)]];
      return true;
    }

    /** `getPhases()` */
    method GetPhases() returns (all: seq<Phase>)
      ensures all == entries
    {
      return entries;
    }

    /** `getPhaseById(id)`, scanning the entries in order. */
    method GetPhaseById(id: Value) returns (found: Option<Phase>)
      ensures found == FindById(entries, id)
    {
      var i := 0;
      while i < |entries|
        invariant 0 <= i <= |entries|
        invariant FindById(entries, id) == FindById(entries[i..], id)
      {
        assert entries[i..][1..] == entries[i + 1..];
        if HasId(entries[i], id) {
          return Some(entries[i]);
        }
        i := i + 1;
      }
      return None;
    }
  }
}
