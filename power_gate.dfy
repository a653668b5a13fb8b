/** The power gate: the thruster may act only while every battery of its
    model has charge left. */
module PowerGate {

  /** An entity id of the entity-component store. */
  type Entity = nat

  /** One BatterySoC component: the parent of the entity that carries it,
      and its state of charge. */
  datatype Battery = Battery(parent: Entity, soc: real)

  /** Every battery whose parent is `model` has a positive state of charge. */
  predicate Sufficient(batteries: seq<Battery>, model: Entity) {
    forall i :: 0 <= i < |batteries| && batteries[i].parent == model ==> batteries[i].soc > 0.0
  }

  /** With no battery at all the gate is open. */
  lemma NoBatteriesIsSufficient(model: Entity)
    ensures Sufficient([], model)
  {
  }

  /** One depleted battery of the model closes the gate, whatever the others hold. */
  lemma DepletedBatteryCloses(batteries: seq<Battery>, model: Entity, i: nat)
    requires i < |batteries| && batteries[i].parent == model && batteries[i].soc <= 0.0
    ensures !Sufficient(batteries, model)
  {
  }

  /** The gate over a concatenation is the conjunction of the gates. */
  lemma SufficientAppend(a: seq<Battery>, b: seq<Battery>, model: Entity)
    ensures Sufficient(a + b, model) <==> Sufficient(a, model) && Sufficient(b, model)
  {
    if Sufficient(a, model) && Sufficient(b, model) {
      forall i | 0 <= i < |a + b| && (a + b)[i].parent == model
        ensures (a + b)[i].soc > 0.0
      {
        if i >= |a| {
          assert (a + b)[i] == b[i - |a|];
        }
      }
    }
    if Sufficient(a + b, model) {
      forall j | 0 <= j < |a| && a[j].parent == model
        ensures a[j].soc > 0.0
      {
        assert (a + b)[j] == a[j];
      }
      forall j | 0 <= j < |b| && b[j].parent == model
        ensures b[j].soc > 0.0
      {
        assert (a + b)[|a| + j] == b[j];
      }
    }
  }

  /** Batteries of other models do not matter. */
  lemma OtherModelsIgnored(batteries: seq<Battery>, other: Battery, model: Entity)
    requires other.parent != model
    ensures Sufficient(batteries + [other], model) == Sufficient(batteries, model)
  {
    SufficientAppend(batteries, [other], model);
  }
}
