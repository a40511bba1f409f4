// Sums over the values of a finite map.
module Sums {

  ghost function Sum<K>(values: map<K, int>): int
    decreases |values|
  {
    if values == map[] then 0
    else
      var key :| key in values;
      values[key] + Sum(values - {key})
  }

  lemma {:induction false} SumRemove<K>(values: map<K, int>, key: K)
    requires key in values
    ensures Sum(values) == values[key] + Sum(values - {key})
    decreases |values|
  {
    var first :| first in values && Sum(values) == values[first] + Sum(values - {first});
    if first != key {
      SumRemove(values - {first}, key);
      SumRemove(values - {key}, first);
      assert values - {first} - {key} == values - {key} - {first};
    }
  }

  lemma {:induction false} SumNonnegative<K>(values: map<K, int>)
    requires forall key :: key in values ==> values[key] >= 0
    ensures Sum(values) >= 0
    decreases |values|
  {
    if values != map[] {
      var key :| key in values;
      SumRemove(values, key);
      SumNonnegative(values - {key});
    }
  }

  lemma {:induction false} SumDifference<K>(a: map<K, int>, b: map<K, int>, difference: map<K, int>)
    requires a.Keys == b.Keys == difference.Keys
    requires forall key :: key in a ==> difference[key] == a[key] - b[key]
    ensures Sum(difference) == Sum(a) - Sum(b)
    decreases |a|
  {
    if a == map[] {
      assert b == map[] && difference == map[];
    } else {
      var key :| key in a;
      SumRemove(a, key);
      SumRemove(b, key);
      SumRemove(difference, key);
      SumDifference(a - {key}, b - {key}, difference - {key});
    }
  }

  lemma {:induction false} SumAtMost<K>(a: map<K, int>, b: map<K, int>)
    requires a.Keys <= b.Keys
    requires forall key :: key in b ==> b[key] >= 0 && (key in a ==> a[key] <= b[key])
    ensures Sum(a) <= Sum(b)
    decreases |b|
  {
    if a == map[] {
      SumNonnegative(b);
    } else {
      var key :| key in a;
      SumRemove(a, key);
      SumRemove(b, key);
      SumAtMost(a - {key}, b - {key});
    }
  }
}
