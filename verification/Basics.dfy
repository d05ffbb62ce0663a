/** Machine integers, results and keymap positions shared by every module. */
module Basics {

  type u8 = x: int | 0 <= x < 0x100
  type u16 = x: int | 0 <= x < 0x1_0000

  /** Little-endian words. */
  function Le16(lo: u8, hi: u8): u16 {
    lo as int + 0x100 * hi as int
  }

  function Le32(b0: u8, b1: u8, b2: u8, b3: u8): nat {
    Le16(b0, b1) as int + 0x1_0000 * Le16(b2, b3) as int
  }

  datatype Option<+T> = None | Some(value: T)

  /** The driver error variants; payloads that only feed log lines are dropped. */
  datatype DriverError =
    | Io
    | Timeout
    | PermissionDenied
    | ProtocolViolation
    | Disconnected
    | Unsupported

  datatype Result<+T> = Ok(value: T) | Err(error: DriverError)

  /** A keymap slot: layer, matrix row, matrix column. */
  datatype Key = Key(layer: u8, row: u8, col: u8)

  type Keymap = map<Key, u16>

  /** Keymap reads default to KC_NO where nothing is stored. */
  function KeyAt(m: Keymap, k: Key): u16 {
    if k in m then m[k] else 0
  }

  /** Two maps agree at one key, in membership and in value. */
  predicate SameAt<K, V(==)>(a: map<K, V>, b: map<K, V>, k: K) {
    (k in a <==> k in b) && (k in a ==> a[k] == b[k])
  }

  lemma SameEverywhere<K(!new), V>(a: map<K, V>, b: map<K, V>)
    requires forall k :: SameAt(a, b, k)
    ensures a == b
  {
    assert forall k :: k in a <==> k in b by {
      forall k ensures k in a <==> k in b { assert SameAt(a, b, k); }
    }
    forall k | k in a ensures a[k] == b[k] { assert SameAt(a, b, k); }
  }
}
