/** Go slices that start at the head of their backing array: enough to say when an append writes into
    an array another slice still reads. */
module Slices {

  datatype Slice<T> = Slice(data: array<T>, len: nat)

  ghost predicate ValidSlice<T>(s: Slice<T>) {
    s.len <= s.data.Length
  }

  ghost function Elements<T>(s: Slice<T>): seq<T>
    requires ValidSlice(s)
    reads s.data
  {
    s.data[..s.len]
  }

  /** Go's append: in place when the capacity allows, which overwrites what other slices of the same array
      have beyond their own length. */
  method Append<T>(s: Slice<T>, p: T) returns (r: Slice<T>)
    requires ValidSlice(s)
    modifies s.data
    ensures ValidSlice(r) && r.len == s.len + 1 && Elements(r) == old(Elements(s)) + [p]
    ensures r.data == s.data || fresh(r.data)
    ensures Elements(s) == old(Elements(s))
  {
    if s.len < s.data.Length {
      s.data[s.len] := p;
      r := Slice(s.data, s.len + 1);
    } else {
      var grown := new T[2 * s.len + 1](i reads s.data => if 0 <= i < s.data.Length then s.data[i] else p);
      r := Slice(grown, s.len + 1);
    }
    assert Elements(r) == old(Elements(s)) + [p];
  }

  /** Appending to a slice at least as long as another of the same array leaves the other's elements alone. */
  method AppendKeeping<T>(given: Slice<T>, s: Slice<T>, p: T) returns (r: Slice<T>)
    requires ValidSlice(given) && ValidSlice(s) && given.len <= s.len
    modifies s.data
    ensures ValidSlice(r) && r.len == s.len + 1 && Elements(r) == old(Elements(s)) + [p]
    ensures r.data == s.data || fresh(r.data)
    ensures Elements(given) == old(Elements(given))
  {
    r := Append(s, p);
    assert given.data == s.data ==> forall i :: 0 <= i < given.len ==> s.data[..s.len][i] == old(s.data[..s.len])[i];
  }
}
