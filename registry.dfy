/** The connection registry's history: every `put` and `remove` applied to the
    email-to-emitter map, and what the map holds after them. */
module Registry {
  import opened Wrappers

  datatype RegistryOp<V> = Put(email: string, value: V) | Remove(email: string)

  /** The registry after applying `ops`, oldest first, to an empty map. */
  function Replay<V>(ops: seq<RegistryOp<V>>): map<string, V>
  {
    if ops == [] then map[]
    else
      var m := Replay(ops[..|ops| - 1]);
      match ops[|ops| - 1]
      case Put(e, v) => m[e := v]
      case Remove(e) => m - {e}
  }

  /** The value most recently put for `email` and not removed since, if any. */
  function Latest<V>(ops: seq<RegistryOp<V>>, email: string): Option<V>
  {
    if ops == [] then None
    else if ops[|ops| - 1].email != email then Latest(ops[..|ops| - 1], email)
    else if ops[|ops| - 1].Put? then Some(ops[|ops| - 1].value)
    else None
  }

  lemma ReplayPut<V>(ops: seq<RegistryOp<V>>, email: string, value: V)
    ensures Replay(ops + [Put(email, value)]) == Replay(ops)[email := value]
  {
  }

  lemma ReplayRemove<V>(ops: seq<RegistryOp<V>>, email: string)
    ensures Replay(ops + [Remove(email)]) == Replay(ops) - {email}
  {
  }

  /** Registry consistency: looking an email up after any sequence of puts and
      removes gives the most recent put for it that no remove has undone. */
  lemma {:induction false} ReplayIsLatest<V>(ops: seq<RegistryOp<V>>, email: string)
    ensures email in Replay(ops) <==> Latest(ops, email).Some?
    ensures email in Replay(ops) ==> Replay(ops)[email] == Latest(ops, email).value
  {
    if ops != [] {
      ReplayIsLatest(ops[..|ops| - 1], email);
    }
  }
}
