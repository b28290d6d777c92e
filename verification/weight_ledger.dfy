/** The server's weight ledger: a fixed set of categories, each with the
    kilograms recorded for it, and the three endpoints that add to one
    category, reset all of them and report the totals; plus the guard the
    classification endpoint applies before it consults the classifier. */
module WeightLedger {
  import opened Base
  import CocoTable

  /** The store: the categories in insertion order (the order Python's
      `dict` iterates in, and so the order `sum` adds in) and their
      weights. */
  datatype Ledger<K> = Ledger(order: seq<K>, weights: map<K, real>)

  /** Each category is listed once and every listed category has a weight. */
  ghost predicate Valid<K(!new)>(l: Ledger<K>)
  {
    && (forall i, j :: 0 <= i < j < |l.order| ==> l.order[i] != l.order[j])
    && (forall k :: k in l.order <==> k in l.weights)
  }

  /** `sum(weight_store.values())`, over exact reals. */
  function Sum<K(!new)>(order: seq<K>, weights: map<K, real>): real
    requires forall k :: k in order ==> k in weights
  {
    if |order| == 0 then 0.0 else weights[order[0]] + Sum(order[1..], weights)
  }

  /** The response body of the weight endpoints. */
  datatype WeightSummary<K> = WeightSummary(weights: map<K, real>, totalWeight: real)

  /** What a request that raises gets back. */
  datatype HttpError = HttpError(status: int, detail: string)

  /** Changing the weight of a category listed once changes the sum by the
      same amount. */
  lemma {:induction false} SumUpdate<K(!new)>(order: seq<K>, weights: map<K, real>, k: K, w: real)
    requires forall x :: x in order ==> x in weights
    requires k in weights
    requires forall i, j :: 0 <= i < j < |order| ==> order[i] != order[j]
    ensures Sum(order, weights[k := w]) == Sum(order, weights) + (if k in order then w - weights[k] else 0.0)
    decreases |order|
  {
    if |order| > 0 {
      assert forall i, j :: 0 <= i < j < |order[1..]| ==> order[1..][i] != order[1..][j] by {
        forall i, j | 0 <= i < j < |order[1..]| ensures order[1..][i] != order[1..][j] {
          assert order[1..][i] == order[i + 1] && order[1..][j] == order[j + 1];
        }
      }
      SumUpdate(order[1..], weights, k, w);
      if order[0] == k {
        assert k !in order[1..] by {
          forall i | 0 <= i < |order[1..]| ensures order[1..][i] != k {
            assert order[1..][i] == order[i + 1];
          }
        }
      } else {
        assert k in order ==> k in order[1..];
      }
    }
  }

  /** A sum of weights that are all zero is zero. */
  lemma {:induction false} SumOfZeros<K(!new)>(order: seq<K>, weights: map<K, real>)
    requires forall k :: k in order ==> k in weights && weights[k] == 0.0
    ensures Sum(order, weights) == 0.0
    decreases |order|
  {
    if |order| > 0 {
      assert forall k :: k in order[1..] ==> k in order;
      SumOfZeros(order[1..], weights);
    }
  }

  /** A sum of non-negative weights is non-negative and no smaller than any
      one of them. */
  lemma {:induction false} SumBounds<K(!new)>(order: seq<K>, weights: map<K, real>)
    requires forall k :: k in order ==> k in weights && weights[k] >= 0.0
    ensures Sum(order, weights) >= 0.0
    ensures forall k :: k in order ==> weights[k] <= Sum(order, weights)
    decreases |order|
  {
    if |order| > 0 {
      assert forall k :: k in order[1..] ==> k in order;
      SumBounds(order[1..], weights);
      assert forall k :: k in order ==> k == order[0] || k in order[1..];
    }
  }

  /** The total the endpoints report. */
  function Total<K(!new)>(l: Ledger<K>): real
    requires Valid(l)
  {
    Sum(l.order, l.weights)
  }

  /** `update_weight`: add `w` kilograms to category `k`.  A category the
      store does not hold raises `KeyError` before anything changes. */
  function UpdateWeight<K(!new)>(l: Ledger<K>, k: K, w: real): (r: Result<(Ledger<K>, WeightSummary<K>), HttpError>)
    requires Valid(l)
    ensures k !in l.weights <==> r.Failure?
    ensures r.Ok? ==>
      && r.value.0.order == l.order
      && r.value.0.weights.Keys == l.weights.Keys
      && r.value.0.weights[k] == l.weights[k] + w
      && (forall x :: x in l.weights && x != k ==> r.value.0.weights[x] == l.weights[x])
      && Valid(r.value.0)
      && r.value.1 == WeightSummary(r.value.0.weights, Total(r.value.0))
      && r.value.1.totalWeight == Total(l) + w
  {
    if k !in l.weights then Failure(HttpError(500, "KeyError"))
    else
      var next := Ledger(l.order, l.weights[k := l.weights[k] + w]);
      SumUpdate(l.order, l.weights, k, l.weights[k] + w);
      Ok((next, WeightSummary(next.weights, Total(next))))
  }

  /** `reset_weights`: every category back to zero, the same categories
      kept, and a total of zero reported. */
  function ResetWeights<K(!new)>(l: Ledger<K>): (r: (Ledger<K>, WeightSummary<K>))
    requires Valid(l)
    ensures r.0.order == l.order && r.0.weights.Keys == l.weights.Keys
    ensures forall k :: k in r.0.weights ==> r.0.weights[k] == 0.0
    ensures Valid(r.0) && r.1 == WeightSummary(r.0.weights, 0.0) && Total(r.0) == 0.0
  {
    var next := Ledger(l.order, map k | k in l.weights :: 0.0);
    SumOfZeros(next.order, next.weights);
    (next, WeightSummary(next.weights, 0.0))
  }

  /** Resetting twice is resetting once. */
  lemma ResetIdempotent<K(!new)>(l: Ledger<K>)
    requires Valid(l)
    ensures ResetWeights(ResetWeights(l).0) == ResetWeights(l)
  {
  }

  /** `get_weight_summary`: the store as it is and the sum of its weights;
      the store is handed back untouched. */
  function GetWeightSummary<K(!new)>(l: Ledger<K>): (r: (Ledger<K>, WeightSummary<K>))
    requires Valid(l)
    ensures r.0 == l
    ensures r.1.weights == l.weights && r.1.totalWeight == Total(l)
  {
    (l, WeightSummary(l.weights, Total(l)))
  }

  /** With no negative weight recorded, the total is at least zero and at
      least each category's weight. */
  lemma TotalBounds<K(!new)>(l: Ledger<K>)
    requires Valid(l)
    requires forall k :: k in l.weights ==> l.weights[k] >= 0.0
    ensures Total(l) >= 0.0
    ensures forall k :: k in l.weights ==> l.weights[k] <= Total(l)
  {
    SumBounds(l.order, l.weights);
  }

  /** One request to the weight endpoints. */
  datatype Request<K> = Update(category: K, weight: real) | Reset | Summary

  /** The store after one request; a failing update leaves it as it was. */
  function Apply<K(!new)>(l: Ledger<K>, q: Request<K>): (r: Ledger<K>)
    requires Valid(l)
    ensures Valid(r) && r.order == l.order && r.weights.Keys == l.weights.Keys
  {
    match q
    case Update(k, w) =>
      (match UpdateWeight(l, k, w)
       case Ok(res) => res.0
       case Failure(_) => l)
    case Reset => ResetWeights(l).0
    case Summary => GetWeightSummary(l).0
  }

  /** The store after a sequence of requests, in order. */
  function Run<K(!new)>(l: Ledger<K>, qs: seq<Request<K>>): (r: Ledger<K>)
    requires Valid(l)
    ensures Valid(r)
    decreases |qs|
  {
    if |qs| == 0 then l else Run(Apply(l, qs[0]), qs[1..])
  }

  /** No sequence of requests adds, removes or reorders a category. */
  lemma {:induction false} RunKeepsCategories<K(!new)>(l: Ledger<K>, qs: seq<Request<K>>)
    requires Valid(l)
    ensures Run(l, qs).order == l.order && Run(l, qs).weights.Keys == l.weights.Keys
    decreases |qs|
  {
    if |qs| > 0 {
      RunKeepsCategories(Apply(l, qs[0]), qs[1..]);
    }
  }

  /** Requests that only add non-negative weights keep every weight
      non-negative. */
  lemma {:induction false} RunKeepsNonNegative<K(!new)>(l: Ledger<K>, qs: seq<Request<K>>)
    requires Valid(l)
    requires forall k :: k in l.weights ==> l.weights[k] >= 0.0
    requires forall i :: 0 <= i < |qs| && qs[i].Update? ==> qs[i].weight >= 0.0
    ensures forall k :: k in Run(l, qs).weights ==> Run(l, qs).weights[k] >= 0.0
    decreases |qs|
  {
    if |qs| > 0 {
      var next := Apply(l, qs[0]);
      assert forall k :: k in next.weights ==> next.weights[k] >= 0.0;
      assert forall i :: 0 <= i < |qs[1..]| && qs[1..][i].Update? ==> qs[1..][i].weight >= 0.0 by {
        forall i | 0 <= i < |qs[1..]| && qs[1..][i].Update? ensures qs[1..][i].weight >= 0.0 {
          assert qs[1..][i] == qs[i + 1];
        }
      }
      RunKeepsNonNegative(next, qs[1..]);
    }
  }

  /** The categories the server's store holds, in its order. */
  const StoreCategories: seq<CocoTable.WasteCategory> :=
    [CocoTable.EWasteUseful, CocoTable.EWasteNotUseful, CocoTable.NonOrganic, CocoTable.Biogas, CocoTable.Compost]

  /** The store lists each category but `unknown`, once. */
  lemma StoreCategoriesListed()
    ensures forall i, j :: 0 <= i < j < |StoreCategories| ==> StoreCategories[i] != StoreCategories[j]
    ensures forall k :: k in StoreCategories <==> k != CocoTable.Unknown
  {
    forall k: CocoTable.WasteCategory | k != CocoTable.Unknown ensures k in StoreCategories {
      assert k == StoreCategories[0] || k == StoreCategories[1] || k == StoreCategories[2]
        || k == StoreCategories[3] || k == StoreCategories[4];
    }
  }

  /** `weight_store` as the server starts: every category but `unknown`,
      five in all, at zero. */
  function InitialStore(): (l: Ledger<CocoTable.WasteCategory>)
    ensures Valid(l) && l.order == StoreCategories && |l.order| == 5
    ensures forall k :: k in l.weights <==> k != CocoTable.Unknown
    ensures forall k :: k in l.weights ==> l.weights[k] == 0.0
    ensures Total(l) == 0.0
  {
    var l := Ledger(StoreCategories, map k | k in StoreCategories :: 0.0);
    StoreCategoriesListed();
    SumOfZeros(l.order, l.weights);
    l
  }

  /** `classify_waste`: an empty image is refused with 400 before the
      classifier (a parameter here) is asked; otherwise its answer is
      returned as it is. */
  function ClassifyWaste(imageData: string, classify: string -> Classification): (r: Result<Classification, HttpError>)
    ensures |imageData| == 0 <==> r.Failure?
    ensures r.Failure? ==> r.error == HttpError(400, "No image data provided")
    ensures r.Ok? ==> r.value == classify(imageData)
  {
    if |imageData| == 0 then Failure(HttpError(400, "No image data provided"))
    else Ok(classify(imageData))
  }

  /** The refusal of an empty image does not depend on the classifier. */
  lemma EmptyImageNeverClassified(c1: string -> Classification, c2: string -> Classification)
    ensures ClassifyWaste("", c1) == ClassifyWaste("", c2)
  {
  }
}
