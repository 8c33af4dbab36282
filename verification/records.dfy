/** The transcript entry that every stage passes around, and Python's `int()` on a float. */
module Records {
  import opened Wrappers

  /** One transcript entry: the dict {"start", "end", "text", "timestamp"} built by the
      transcriber. Consumers read it with `chunk.get(key, default)`, so every field may be
      missing; a missing field is `None` here. */
  datatype Chunk = Chunk(start: Option<real>, end: Option<real>, text: Option<string>, timestamp: Option<string>)

  /** `chunk.get("text", "")` */
  function TextOf(c: Chunk): string {
    c.text.GetOr("")
  }

  /** Python's `int(x)` for a float `x`: rounds toward zero. */
  function Trunc(x: real): (n: int)
    ensures x >= 0.0 ==> 0 <= n && n as real <= x < n as real + 1.0
    ensures x < 0.0 ==> n <= 0 && n as real - 1.0 < x <= n as real
  {
    if x >= 0.0 then x.Floor else -((-x).Floor)
  }
}
