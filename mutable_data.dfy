/** NSMutableData and its `append(string:)` extension: a byte buffer grown in place. */
module MutableDataBuffer {
  import opened Bytes

  class MutableData {
    var bytes: Bytes

    constructor ()
      ensures bytes == []
    {
      bytes := [];
    }

    /** `append(_:)`: the given bytes go at the end. */
    method Append(d: Bytes)
      modifies this
      ensures bytes == old(bytes) + d
    {
      bytes := bytes + d;
    }

    /** `append(string:)`: the UTF-8 bytes of `s` go at the end; what was there is kept.
        The conversion cannot fail for a string of Unicode scalar values, so the
        early return of the Swift guard is never taken. */
    method AppendString(s: string)
      modifies this
      ensures bytes == old(bytes) + Utf8(s)
      ensures |bytes| == |old(bytes)| + |Utf8(s)|
      ensures bytes[..|old(bytes)|] == old(bytes)
      ensures s == "" ==> bytes == old(bytes)
    {
      var data := Utf8(s);
      Append(data);
    }
  }
}
