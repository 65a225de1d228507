/** Python's membership operator `needle in container` for a string needle
    and a parsed JSON container. */
module PyIn {
  import opened Wrappers
  import opened Json

  /** `needle` occurs in `hay` starting at index `i`. */
  predicate OccursAt(needle: string, hay: string, i: nat)
  {
    i + |needle| <= |hay| && hay[i..i + |needle|] == needle
  }

  /** Past index 0, the occurrences in `hay` are those in `hay[1..]`,
      shifted by one. */
  lemma OccursPastFirst(needle: string, hay: string)
    requires hay != [] && !OccursAt(needle, hay, 0)
    ensures (exists i: nat :: OccursAt(needle, hay, i)) <==> (exists j: nat :: OccursAt(needle, hay[1..], j))
  {
    forall i: nat | OccursAt(needle, hay, i)
      ensures OccursAt(needle, hay[1..], i - 1)
    {
      assert hay[1..][i - 1..i - 1 + |needle|] == hay[i..i + |needle|];
    }
    forall j: nat | OccursAt(needle, hay[1..], j)
      ensures OccursAt(needle, hay, j + 1)
    {
      assert hay[1..][j..j + |needle|] == hay[j + 1..j + 1 + |needle|];
    }
  }

  /** Python's `needle in hay` on two strings: a left-to-right substring
      search, true for the empty needle. */
  function HasSubstring(needle: string, hay: string): (b: bool)
    ensures b <==> exists i: nat :: OccursAt(needle, hay, i)
    decreases |hay|
  {
    if |hay| < |needle| then false
    else if hay[..|needle|] == needle then
      assert OccursAt(needle, hay, 0);
      true
    else
      assert !OccursAt(needle, hay, 0);
      OccursPastFirst(needle, hay);
      HasSubstring(needle, hay[1..])
  }

  /** `needle in container`: a substring test on a string, element equality
      on a list, key membership on a dict. `None` is the TypeError that `in`
      raises for null, a boolean or a number. */
  function In(needle: string, container: Json): (r: Option<bool>)
    ensures r.None? <==> container.JNull? || container.JBool? || container.JNum?
    ensures container.JStr? ==> r == Some(exists i: nat :: OccursAt(needle, container.s, i))
  {
    match container
    case JStr(s) => Some(HasSubstring(needle, s))
    case JArr(items) => Some(JStr(needle) in items)
    case JObj(fields) => Some(needle in fields)
    case _ => None
  }

  /** `needle in container` evaluates without error and is true. */
  predicate Contains(container: Json, needle: string): (b: bool)
    ensures b ==> !(container.JNull? || container.JBool? || container.JNum?)
    ensures container.JStr? ==> (b <==> exists i: nat :: OccursAt(needle, container.s, i))
    ensures container.JArr? ==> (b <==> exists k :: 0 <= k < |container.items| && container.items[k] == JStr(needle))
    ensures container.JObj? ==> (b <==> needle in container.fields)
  {
    In(needle, container) == Some(true)
  }
}
