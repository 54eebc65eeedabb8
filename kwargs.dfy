/**
 * Keyword-argument values and the "omit what is not set" filter that
 * writer.py imports as `func_args.resolve_kwargs`. The `NOTHING` sentinel is
 * `Unset`; an explicit Python `None` is the value `Null`, which is kept.
 */
module Kwargs {

  /**
   * A field value. Dictionaries, lists and other objects that no code in the
   * writer inspects are opaque, told apart only by an identity.
   */
  datatype Value = Null | Bool(b: bool) | Int(i: int) | Str(s: string) | Opaque(id: nat)

  /** A dataclass field: either left at `NOTHING` or holding a value. */
  datatype Field = Unset | Val(v: Value)

  type Kwargs = map<string, Value>

  /** Keyword names in a call are pairwise distinct (Python refuses a repeated keyword). */
  predicate DistinctNames(args: seq<(string, Field)>) {
    forall i, j :: 0 <= i < j < |args| ==> args[i].0 != args[j].0
  }

  /**
   * `resolve_kwargs(name=field, ...)`: the dictionary of the arguments that are
   * set, each under its own name with its own value, and nothing else.
   */
  function OmitUnset(args: seq<(string, Field)>): (r: Kwargs)
    requires DistinctNames(args)
    ensures forall k :: k in r ==> exists i :: 0 <= i < |args| && args[i].0 == k
    ensures forall i {:trigger Projects(r, args[i].0, args[i].1)} :: 0 <= i < |args| ==> Projects(r, args[i].0, args[i].1)
  {
    if |args| == 0 then map[]
    else
      var rest := OmitUnset(args[1..]);
      var r := if args[0].1.Val? then rest[args[0].0 := args[0].1.v] else rest;
      assert forall i :: 0 < i < |args| ==> args[1..][i - 1] == args[i];
      assert forall i | 0 <= i < |args| :: Projects(r, args[i].0, args[i].1) by {
        forall i | 0 <= i < |args| ensures Projects(r, args[i].0, args[i].1) {
          if i > 0 {
            // the later arguments are projected by `rest`, and the first name is none of theirs
            assert Projects(rest, args[1..][i - 1].0, args[1..][i - 1].1);
          }
        }
      }
      r
  }

  /** Whether argument `name` of `kw` carries field `f` exactly: present iff set, with its value. */
  predicate Projects(kw: Kwargs, name: string, f: Field) {
    (name in kw <==> f.Val?) && (f.Val? ==> kw[name] == f.v)
  }
}
