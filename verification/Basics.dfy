/** Small types shared by the whole project. */
module Basics {

  type byte = b: int | 0 <= b < 256

  datatype Option<+T> = None | Some(value: T)

  datatype Result<+T, +E> = Ok(value: T) | Err(error: E)

  /** The two ends of a control connection. Only the server opens channels. */
  datatype Side = Server | Client {
    function Other(): Side {
      if this == Server then Client else Server
    }
  }

  /** One value for each side. */
  datatype Pair<T> = Pair(server: T, client: T) {
    function Of(s: Side): T {
      if s == Server then server else client
    }

    function With(s: Side, v: T): Pair<T> {
      if s == Server then Pair(v, client) else Pair(server, v)
    }
  }

  function Min(a: int, b: int): int {
    if a <= b then a else b
  }

  /** The pieces of a concatenation. */
  lemma Pieces<T>(a: seq<T>, b: seq<T>, c: seq<T>)
    ensures (a + b)[..|a|] == a && (a + b)[|a|..] == b && (a + b)[|a|..|a| + |b|] == b
    ensures (a + b + c)[..|a|] == a && (a + b + c)[|a|..|a| + |b|] == b && (a + b + c)[|a| + |b|..] == c
    ensures (a + b + c)[|a|..] == b + c && (a + b) + c == a + (b + c)
  {
  }

  lemma Rejoined<T>(s: seq<T>, i: nat, j: nat)
    requires i <= j <= |s|
    ensures s == s[..i] + s[i..] && s == s[..i] + s[i..j] + s[j..]
    ensures s[i..][..j - i] == s[i..j] && s[i..][j - i..] == s[j..] && s[..i] + s[i..j] == s[..j]
  {
  }
}
