/**
  The shared key/value configuration `controller.CONF`, and the `NovaConfig.options`
  dictionary, as association lists. The order of the list is the fixed order in
  which `items()` visits the entries; a new key goes at the end and overwriting a
  key keeps its place.
*/
module Config {
  import opened Results

  type Conf = seq<(string, string)>

  /** `d.get(k)` */
  function Get(c: Conf, k: string): Option<string>
    decreases |c|
  {
    if |c| == 0 then None
    else if c[0].0 == k then Some(c[0].1)
    else Get(c[1..], k)
  }

  predicate HasKey(c: Conf, k: string) {
    Get(c, k).Some?
  }

  /** `d[k]`, which raises `KeyError` on a missing key. */
  function Lookup(c: Conf, k: string): Result<string> {
    match Get(c, k)
    case Some(v) => Ok(v)
    case None => Err(KeyError(k))
  }

  /** `d[k] = v` */
  function Set(c: Conf, k: string, v: string): Conf
    decreases |c|
  {
    if |c| == 0 then [(k, v)]
    else if c[0].0 == k then [(k, v)] + c[1..]
    else [c[0]] + Set(c[1..], k, v)
  }

  /** A dictionary holds each key once. */
  predicate DistinctKeys(c: Conf)
    decreases |c|
  {
    |c| == 0 || (!HasKey(c[1..], c[0].0) && DistinctKeys(c[1..]))
  }

  /** After `d[k] = v`, `d[k]` is `v` and every other key reads as before. */
  lemma {:induction false} GetSet(c: Conf, k: string, v: string, k': string)
    ensures Get(Set(c, k, v), k') == if k' == k then Some(v) else Get(c, k')
    decreases |c|
  {
    if |c| > 0 && c[0].0 != k {
      GetSet(c[1..], k, v, k');
    }
  }

  /** Assigning a key twice is the same as assigning it the second value. */
  lemma {:induction false} SetOverwrite(c: Conf, k: string, v: string, w: string)
    ensures Set(Set(c, k, v), k, w) == Set(c, k, w)
    decreases |c|
  {
    if |c| > 0 && c[0].0 != k {
      SetOverwrite(c[1..], k, v, w);
    }
  }

  /** Overwriting keeps every key in its place; a new key is appended at the end. */
  lemma {:induction false} SetKeepsOrder(c: Conf, k: string, v: string)
    ensures HasKey(c, k) ==> |Set(c, k, v)| == |c|
    ensures HasKey(c, k) ==> forall i :: 0 <= i < |c| ==> Set(c, k, v)[i].0 == c[i].0
    ensures !HasKey(c, k) ==> Set(c, k, v) == c + [(k, v)]
    decreases |c|
  {
    if |c| > 0 && c[0].0 != k {
      SetKeepsOrder(c[1..], k, v);
      if HasKey(c, k) {
        forall i | 0 <= i < |c| ensures Set(c, k, v)[i].0 == c[i].0 {
          if i > 0 {
            assert Set(c, k, v)[i] == Set(c[1..], k, v)[i - 1];
          }
        }
      }
    }
  }

  /** Assignment keeps a dictionary's keys distinct. */
  lemma {:induction false} SetDistinct(c: Conf, k: string, v: string)
    requires DistinctKeys(c)
    ensures DistinctKeys(Set(c, k, v))
    decreases |c|
  {
    if |c| > 0 && c[0].0 != k {
      SetDistinct(c[1..], k, v);
      GetSet(c[1..], k, v, c[0].0);
      assert Set(c, k, v)[1..] == Set(c[1..], k, v);
    }
  }
}
