/** Go slices and the built-ins on them. */
module Slices {

  /** A Go call that may panic. */
  datatype Try<+T> = Panic | Done(value: T)

  /** A slice that starts at the beginning of its array: len(s) == len, cap(s) == arr.Length. */
  datatype Slice<T> = Slice(arr: array<T>, len: nat)

  /** copy(dst[at:], src[lo:lo+n]) */
  method Copy<T>(dst: array<T>, at: nat, src: array<T>, lo: nat, n: nat)
    requires dst != src && at + n <= dst.Length && lo + n <= src.Length
    modifies dst
    ensures dst[..at] == old(dst[..at]) && dst[at..at + n] == src[lo..lo + n] && dst[at + n..] == old(dst[at + n..])
  {
    for k := 0 to n
      invariant dst[..at] == old(dst[..at]) && dst[at..at + k] == src[lo..lo + k] && dst[at + k..] == old(dst[at + k..])
    {
      dst[at + k] := src[lo + k];
    }
  }

  /** append(s, x): in place while there is capacity, otherwise into a new, larger array. */
  method Append<T(0)>(s: Slice<T>, x: T) returns (r: Slice<T>)
    requires s.len <= s.arr.Length
    modifies s.arr
    ensures r.len == s.len + 1 <= r.arr.Length
    ensures r.arr[..r.len] == old(s.arr[..s.len]) + [x]
    ensures if s.len < s.arr.Length then r.arr == s.arr else fresh(r.arr) && s.arr[..] == old(s.arr[..])
  {
    if s.len < s.arr.Length {
      s.arr[s.len] := x;
      r := Slice(s.arr, s.len + 1);
    } else {
      var bigger := new T[2 * s.arr.Length + 1];
      Copy(bigger, 0, s.arr, 0, s.len);
      bigger[s.len] := x;
      r := Slice(bigger, s.len + 1);
    }
  }
}
