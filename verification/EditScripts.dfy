/** Insert/delete/substitute scripts between two strings, the reference the edit
    distance of a learned correction is measured against. A script names its last
    step first: `Insert(c, earlier)` appends `c` to whatever `earlier` produced. */
module EditScripts {

  datatype Script =
    | Done
    | Keep(earlier: Script)
    | Substitute(earlier: Script, to: char)
    | Insert(earlier: Script, added: char)
    | Delete(earlier: Script)

  function Front(s: string): string
    requires s != []
  {
    s[..|s| - 1]
  }

  function Last(s: string): char
    requires s != []
  {
    s[|s| - 1]
  }

  /** `script` turns `a` into `b`. */
  predicate Turns(script: Script, a: string, b: string)
    decreases script
  {
    match script
    case Done => a == [] && b == []
    case Keep(earlier) => a != [] && b != [] && Last(a) == Last(b) && Turns(earlier, Front(a), Front(b))
    case Substitute(earlier, to) => a != [] && b != [] && Last(b) == to && Turns(earlier, Front(a), Front(b))
    case Insert(earlier, added) => b != [] && Last(b) == added && Turns(earlier, a, Front(b))
    case Delete(earlier) => a != [] && Turns(earlier, Front(a), b)
  }

  function Cost(script: Script): nat {
    match script
    case Done => 0
    case Keep(earlier) => Cost(earlier)
    case Substitute(earlier, _) => Cost(earlier) + 1
    case Insert(earlier, _) => Cost(earlier) + 1
    case Delete(earlier) => Cost(earlier) + 1
  }

  /** No script from `a` to `b` costs less than `d`, and one costs exactly that. */
  ghost predicate IsLeastCost(a: string, b: string, d: nat) {
    && (exists script :: Turns(script, a, b) && Cost(script) == d)
    && (forall script :: Turns(script, a, b) ==> d <= Cost(script))
  }

  /** The script that undoes `script`. */
  ghost function Inverse(script: Script, a: string, b: string): (inverse: Script)
    requires Turns(script, a, b)
    ensures Turns(inverse, b, a) && Cost(inverse) == Cost(script)
    decreases script
  {
    match script
    case Done => Done
    case Keep(earlier) => Keep(Inverse(earlier, Front(a), Front(b)))
    case Substitute(earlier, _) => Substitute(Inverse(earlier, Front(a), Front(b)), Last(a))
    case Insert(earlier, _) => Delete(Inverse(earlier, a, Front(b)))
    case Delete(earlier) => Insert(Inverse(earlier, Front(a), b), Last(a))
  }

  /** One script doing the work of `first` and then `second`, for no more than both. */
  ghost function Compose(first: Script, second: Script, a: string, b: string, c: string): (both: Script)
    requires Turns(first, a, b) && Turns(second, b, c)
    ensures Turns(both, a, c) && Cost(both) <= Cost(first) + Cost(second)
    decreases first, second
  {
    if first.Delete? then Delete(Compose(first.earlier, second, Front(a), b, c))
    else if second.Insert? then Insert(Compose(first, second.earlier, a, b, Front(c)), second.added)
    else if first.Done? then Done
    else if first.Insert? then
      if second.Delete? then Compose(first.earlier, second.earlier, a, Front(b), c)
      else Insert(Compose(first.earlier, second.earlier, a, Front(b), Front(c)), Last(c))
    else if second.Delete? then Delete(Compose(first.earlier, second.earlier, Front(a), Front(b), c))
    else if first.Keep? && second.Keep? then
      Keep(Compose(first.earlier, second.earlier, Front(a), Front(b), Front(c)))
    else Substitute(Compose(first.earlier, second.earlier, Front(a), Front(b), Front(c)), Last(c))
  }

  /** A cost of zero leaves nothing but kept characters. */
  lemma {:induction false} FreeScriptKeeps(script: Script, a: string, b: string)
    requires Turns(script, a, b) && Cost(script) == 0
    ensures a == b
    decreases script
  {
    if script.Keep? {
      FreeScriptKeeps(script.earlier, Front(a), Front(b));
      assert a == Front(a) + [Last(a)] && b == Front(b) + [Last(b)];
    }
  }
}
