/** The cancellation registry (`router/src/cancel.rs`). */
module RouterCancel {

  class Token {
    var cancelled: bool

    constructor ()
      ensures !cancelled
    {
      cancelled := false;
    }
  }

  class CancellationRegistry {
    var inner: map<string, Token>

    constructor ()
      ensures inner == map[]
    {
      inner := map[];
    }

    /** A fresh token, replacing whatever the id was registered to. */
    method Register(id: string) returns (token: Token)
      modifies this
      ensures fresh(token) && !token.cancelled
      ensures inner == old(inner)[id := token]
    {
      token := new Token();
      inner := inner[id := token];
    }

    /** Removes the id whoever registered it; the drop of a guard calls this. */
    method Deregister(id: string)
      modifies this
      ensures inner == old(inner) - {id}
    {
      inner := inner - {id};
    }

    /** Cancels exactly the token the id stands for now, if any. */
    method Cancel(id: string) returns (live: bool)
      modifies inner.Values
      ensures live <==> id in inner
      ensures live ==> inner[id].cancelled
      ensures forall t :: t in inner.Values && (id !in inner || t != inner[id]) ==> t.cancelled == old(t.cancelled)
    {
      if id in inner {
        inner[id].cancelled := true;
        return true;
      }
      return false;
    }
  }
}
