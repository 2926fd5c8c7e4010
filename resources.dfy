/** `Resources` (topology.py): a dictionary from resource names to amounts that
    can be added, subtracted and compared key by key.  Every operation walks the
    keys of its LEFT operand and looks each one up in the right operand, so the
    right operand must have at least those keys (the source assumes both carry the
    same names). */
module ResourceVectors {

  type ResourceName = string
  type Resources = map<ResourceName, int>

  /** `a <= b`: every amount of `a` is at most the amount of the same name in `b`. */
  predicate Le(a: Resources, b: Resources)
    requires a.Keys <= b.Keys
  {
    forall k | k in a :: a[k] <= b[k]
  }

  /** `a + b`, keyed by the names of `a`. */
  function Add(a: Resources, b: Resources): (r: Resources)
    requires a.Keys <= b.Keys
    ensures r.Keys == a.Keys
    ensures forall k | k in r :: r[k] - b[k] == a[k]
  {
    map k | k in a :: a[k] + b[k]
  }

  /** `a - b`, keyed by the names of `a`. */
  function Sub(a: Resources, b: Resources): (r: Resources)
    requires a.Keys <= b.Keys
    ensures r.Keys == a.Keys
    ensures forall k | k in r :: r[k] + b[k] == a[k]
  {
    map k | k in a :: a[k] - b[k]
  }

  /** Subtracting and then adding the same vector gives back the original
      (the subtraction example in the class comment, read backwards). */
  lemma SubAddRoundTrip(a: Resources, b: Resources)
    requires a.Keys <= b.Keys
    ensures Add(Sub(a, b), b) == a
  {
    var r := Add(Sub(a, b), b);
    assert r.Keys == a.Keys;
    forall k | k in a ensures r[k] == a[k] {
    }
  }

  /** Adding and then subtracting the same vector gives back the original. */
  lemma AddSubRoundTrip(a: Resources, b: Resources)
    requires a.Keys <= b.Keys
    ensures Sub(Add(a, b), b) == a
  {
    var r := Sub(Add(a, b), b);
    assert r.Keys == a.Keys;
    forall k | k in a ensures r[k] == a[k] {
    }
  }

  /** `b <= a` holds exactly when `a - b` has no negative amount. */
  lemma LeIffNonNegativeDifference(a: Resources, b: Resources)
    requires a.Keys == b.Keys
    ensures Le(b, a) <==> (forall k | k in Sub(a, b) :: Sub(a, b)[k] >= 0)
  {
    var d := Sub(a, b);
    forall k | k in a ensures d[k] >= 0 <==> b[k] <= a[k] {
      assert d[k] + b[k] == a[k];
    }
  }

  /** The order is reflexive and transitive over vectors with the same names. */
  lemma LePreorder(a: Resources, b: Resources, c: Resources)
    requires a.Keys == b.Keys == c.Keys
    ensures Le(a, a)
    ensures Le(a, b) && Le(b, c) ==> Le(a, c)
  {
  }

  /** The worked example from the class comment. */
  lemma SubtractionExample()
    ensures Sub(map["processing_power" := 100, "bandwidth" := 200],
                map["processing_power" := 50, "bandwidth" := 100])
         == map["processing_power" := 50, "bandwidth" := 100]
  {
    var a := map["processing_power" := 100, "bandwidth" := 200];
    var b := map["processing_power" := 50, "bandwidth" := 100];
    var e := map["processing_power" := 50, "bandwidth" := 100];
    assert Sub(a, b).Keys == e.Keys;
  }
}
