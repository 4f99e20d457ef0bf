/** Python dictionaries, as the tracer mutates them. */
module Dicts {

  /**
   * `d.update(other)`: every key of `other` is written into `d` in turn;
   * a key already in `d` takes the value from `other` (last write wins),
   * and every other key of `d` keeps its value.
   */
  method Update<K, V>(d: map<K, V>, other: map<K, V>) returns (r: map<K, V>)
    ensures r == d + other
    ensures r.Keys == d.Keys + other.Keys
    ensures forall k :: k in other ==> r[k] == other[k]
    ensures forall k :: k in d && k !in other ==> r[k] == d[k]
  {
    r := d;
    var pending := other.Keys;
    while pending != {}
      invariant pending <= other.Keys
      invariant r.Keys == d.Keys + (other.Keys - pending)
      invariant forall k :: k in other && k !in pending ==> r[k] == other[k]
      invariant forall k :: k in d && (k !in other || k in pending) ==> r[k] == d[k]
      decreases pending
    {
      var k :| k in pending;
      r := r[k := other[k]];
      pending := pending - {k};
    }
  }
}
