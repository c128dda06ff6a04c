/** One key of the shared store, as the protocols see it: single-key commands are atomic, and a key
    vanishes once its expiry time is reached. */
module KeyStore {
  datatype Option<+T> = None | Some(value: T)

  datatype Cell<+V> = Absent | Present(value: V, expires: int) {
    /** What GET answers. */
    function Get(): Option<V> {
      if Present? then Some(value) else None
    }

    /** SET key v NX EX ttl: takes effect only on an absent key. */
    function SetNx<U>(v: U, now: int, ttl: nat): Cell<U>
      requires Absent?
    {
      Cell.Present(v, now + ttl)
    }

    /** EXPIRE key ttl: whatever value the key holds; nothing happens to an absent key. */
    function Expire(now: int, ttl: nat): Cell<V> {
      if Present? then Present(value, now + ttl) else Absent
    }

    /** The key after the clock has moved to `now`. */
    function At(now: int): Cell<V> {
      if Present? && expires <= now then Absent else this
    }
  }
}
