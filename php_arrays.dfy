/**
 * PHP's array as the code in this model uses it: an ordered map. A write
 * `$a[$k] = $v` replaces the value in place when `$k` is already a key and
 * appends the pair at the end otherwise.
 */
module PhpArrays {
  import opened Basics
  import opened Collections

  /** An ordered sequence of key/value pairs. */
  type Assoc<K, V> = seq<(K, V)>

  /** A PHP value as the serialization and API code builds it. */
  datatype Value =
    | Null
    | Bool(b: bool)
    | Int(i: int)
    | Str(s: string)
    | List(items: seq<Value>)
    | Dict(entries: seq<(string, Value)>)

  function KeysOf<K, V>(a: Assoc<K, V>): (ks: seq<K>)
  {
    seq(|a|, i requires 0 <= i < |a| => a[i].0)
  }

  function ValuesOf<K, V>(a: Assoc<K, V>): (vs: seq<V>)
  {
    seq(|a|, i requires 0 <= i < |a| => a[i].1)
  }

  predicate HasKey<K(==), V>(a: Assoc<K, V>, k: K)
  {
    k in KeysOf(a)
  }

  /** `$a[$k]`, or `None` when `$k` is not a key. */
  function Get<K(==), V>(a: Assoc<K, V>, k: K): (r: Option<V>)
    ensures r.Some? <==> HasKey(a, k)
  {
    if HasKey(a, k) then Some(a[FirstIndex(KeysOf(a), k)].1) else None
  }

  /** `$a[$k] = $v`. */
  function Set<K(==,!new), V>(a: Assoc<K, V>, k: K, v: V): (r: Assoc<K, V>)
    ensures Get(r, k) == Some(v)
    ensures forall k' :: k' != k ==> Get(r, k') == Get(a, k')
  {
    if HasKey(a, k) then
      var i := FirstIndex(KeysOf(a), k);
      var r := a[..i] + [(k, v)] + a[i + 1..];
      assert KeysOf(r) == KeysOf(a);
      assert forall j :: 0 <= j < |a| && j != i ==> r[j] == a[j];
      r
    else
      var r := a + [(k, v)];
      assert KeysOf(r) == KeysOf(a) + [k];
      assert KeysOf(r)[..|a|] == KeysOf(a);
      FirstIndexUnique(KeysOf(r), k, |a|);
      forall k' | k' != k && HasKey(a, k')
        ensures FirstIndex(KeysOf(r), k') == FirstIndex(KeysOf(a), k')
      {
        FirstIndexPrefix(KeysOf(r), |a|, k');
      }
      r
  }

  /** `$a[$k] = $v` keeps the key order: an existing key stays in place, a new key goes last. */
  lemma SetKeys<K(!new), V>(a: Assoc<K, V>, k: K, v: V)
    ensures KeysOf(Set(a, k, v)) == if HasKey(a, k) then KeysOf(a) else KeysOf(a) + [k]
  {
    if HasKey(a, k) {
      var i := FirstIndex(KeysOf(a), k);
      assert KeysOf(Set(a, k, v)) == KeysOf(a);
    } else {
      assert KeysOf(Set(a, k, v)) == KeysOf(a) + [k];
    }
  }

  /** With unique keys, each pair is what a lookup of its key finds. */
  lemma GetAt<K, V>(a: Assoc<K, V>, i: nat)
    requires NoDuplicates(KeysOf(a)) && i < |a|
    ensures Get(a, a[i].0) == Some(a[i].1)
  {
    FirstIndexUnique(KeysOf(a), a[i].0, i);
  }

  // ---------------------------------------------------------------------
  // Loose comparison

  /** The decimal digits of `n`, most significant first. */
  function Digits(n: nat): (d: string)
    ensures |d| >= 1
  {
    var c := "0123456789"[n % 10];
    if n < 10 then [c] else Digits(n / 10) + [c]
  }

  /** `(string) $i` for an int. */
  function IntText(i: int): string
  {
    if i < 0 then "-" + Digits(-i) else Digits(i)
  }

  /** A string read as a boolean: every string is true except "" and "0". */
  predicate StringTruthy(t: string)
  {
    t != "" && t != "0"
  }

  /**
   * `$t == $v` for a string `$t`: null reads as "", a boolean is compared
   * with the string's truthiness, an int through its decimal text, a string
   * character by character, and an array is never equal to a string.
   */
  predicate LooselyEqualsString(t: string, v: Value)
  {
    match v
    case Null => t == ""
    case Bool(b) => b == StringTruthy(t)
    case Int(i) => t == IntText(i)
    case Str(s) => s == t
    case List(_) => false
    case Dict(_) => false
  }

  /** Loose comparisons of a string where strict comparison answers differently. */
  lemma LooseEqualityExamples()
    ensures LooselyEqualsString("", Null) && !LooselyEqualsString("0", Null)
    ensures LooselyEqualsString("abc", Bool(true)) && LooselyEqualsString("0", Bool(false)) && !LooselyEqualsString("0", Bool(true))
    ensures LooselyEqualsString("7", Int(7)) && LooselyEqualsString("-12", Int(-12)) && !LooselyEqualsString("seven", Int(7))
    ensures !LooselyEqualsString("", List([]))
  {
    assert Digits(12) == Digits(1) + ['2'];
  }
}
