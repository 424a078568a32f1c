/** `urllib.urlencode(d, True)` (Python 2, `doseq` on) as used for the form
    body and the query string: every key/value becomes `quote_plus(key) + "="
    + quote_plus(str(value))`, a list value repeats its key once per element
    in list order, and the pairs are joined with `&`. The order in which the
    dict's keys are walked is Python's dict order, which the library does not
    fix: the model takes it as a parameter. `quote_plus` itself is a
    parameter too. */
module FormEncoding {
  import opened Common
  import opened Strings
  import opened Values

  type Pair = (string, string)

  /** A value the callers pass to urlencode: a scalar, or a list of
      scalars. */
  predicate IsParamValue(v: Value)
  {
    IsScalar(v) || (v.VList? && forall x :: x in v.items ==> IsScalar(x))
  }

  predicate IsParamMap(m: map<string, Value>)
  {
    forall k :: k in m ==> IsParamValue(m[k])
  }

  predicate NoDuplicates(order: seq<string>)
  {
    forall i, j :: 0 <= i < j < |order| ==> order[i] != order[j]
  }

  /** `order` lists every key of `m` exactly once: one possible dict order. */
  ghost predicate IsKeyOrder(order: seq<string>, m: map<string, Value>)
  {
    (forall k :: k in m <==> k in order) && NoDuplicates(order)
  }

  /** The pairs one dict entry contributes: one per element for a list. */
  function Expand(key: string, v: Value): seq<Pair>
    requires IsParamValue(v)
  {
    if v.VList? then seq(|v.items|, i requires 0 <= i < |v.items| => (key, Str(v.items[i])))
    else [(key, Str(v))]
  }

  /** All pairs of a dict, its keys walked in `order`. */
  function FormPairs(m: map<string, Value>, order: seq<string>): seq<Pair>
    requires forall k :: k in order ==> k in m && IsParamValue(m[k])
  {
    if |order| == 0 then []
    else Expand(order[0], m[order[0]]) + FormPairs(m, order[1..])
  }

  function EncodePair(p: Pair, quote: string -> string): string
  {
    quote(p.0) + "=" + quote(p.1)
  }

  function EncodeAll(pairs: seq<Pair>, quote: string -> string): seq<string>
  {
    seq(|pairs|, i requires 0 <= i < |pairs| => EncodePair(pairs[i], quote))
  }

  function Urlencode(pairs: seq<Pair>, quote: string -> string): string
  {
    Join(EncodeAll(pairs, quote), '&')
  }

  /** `urllib.urlencode(m, True)`. */
  function Encode(m: map<string, Value>, order: seq<string>, quote: string -> string): string
    requires IsParamMap(m) && IsKeyOrder(order, m)
  {
    Urlencode(FormPairs(m, order), quote)
  }

  /** The pairs of `ps` whose key is `k`, in order. */
  function PairsWithKey(ps: seq<Pair>, k: string): seq<Pair>
  {
    if |ps| == 0 then []
    else (if ps[0].0 == k then [ps[0]] else []) + PairsWithKey(ps[1..], k)
  }

  lemma {:induction false} PairsWithKeyAppend(a: seq<Pair>, b: seq<Pair>, k: string)
    ensures PairsWithKey(a + b, k) == PairsWithKey(a, k) + PairsWithKey(b, k)
  {
    if |a| > 0 {
      assert (a + b)[0] == a[0] && (a + b)[1..] == a[1..] + b;
      PairsWithKeyAppend(a[1..], b, k);
      var h: seq<Pair> := if a[0].0 == k then [a[0]] else [];
      assert PairsWithKey(a + b, k) == h + PairsWithKey(a[1..] + b, k);
      assert PairsWithKey(a, k) == h + PairsWithKey(a[1..], k);
    } else {
      assert a + b == b;
    }
  }

  lemma {:induction false} PairsWithKeyUniform(ps: seq<Pair>, key: string, k: string)
    requires forall i :: 0 <= i < |ps| ==> ps[i].0 == key
    ensures PairsWithKey(ps, k) == if key == k then ps else []
  {
    if |ps| > 0 {
      PairsWithKeyUniform(ps[1..], key, k);
      assert [ps[0]] + ps[1..] == ps;
    }
  }

  /** The tail of a key order without duplicates is one too, and its head
      does not occur in it again. */
  lemma DistinctTail(order: seq<string>)
    requires |order| > 0 && NoDuplicates(order)
    ensures NoDuplicates(order[1..])
    ensures order[0] !in order[1..]
    ensures forall x :: x in order <==> x == order[0] || x in order[1..]
  {
    assert order == [order[0]] + order[1..];
    forall i, j | 0 <= i < j < |order| - 1 ensures order[1..][i] != order[1..][j] {
      assert order[1..][i] == order[i + 1] && order[1..][j] == order[j + 1];
    }
    forall i | 0 <= i < |order| - 1 ensures order[1..][i] != order[0] {
      assert order[1..][i] == order[i + 1];
    }
  }

  /** Across keys the order is the dict's, but the pairs of any one key are
      exactly that key's expansion: a list value gives one pair per element,
      in list order; a key absent from the walk gives none. */
  lemma {:induction false} FormPairsOfKey(m: map<string, Value>, order: seq<string>, k: string)
    requires forall x :: x in order ==> x in m && IsParamValue(m[x])
    requires NoDuplicates(order)
    ensures PairsWithKey(FormPairs(m, order), k) == if k in order then Expand(k, m[k]) else []
  {
    if |order| > 0 {
      var head, tail := order[0], order[1..];
      DistinctTail(order);
      var e := Expand(head, m[head]);
      assert FormPairs(m, order) == e + FormPairs(m, tail);
      PairsWithKeyAppend(e, FormPairs(m, tail), k);
      PairsWithKeyUniform(e, head, k);
      FormPairsOfKey(m, tail, k);
    }
  }

  /** `quote_plus` escapes both `&` and `=`. */
  ghost predicate EscapesSeparators(quote: string -> string)
  {
    forall s :: '&' !in quote(s) && '=' !in quote(s)
  }

  ghost predicate Inverts(unquote: string -> string, quote: string -> string)
  {
    forall s :: unquote(quote(s)) == s
  }

  function DecodePairs(parts: seq<string>, unquote: string -> string): Option<seq<Pair>>
  {
    if |parts| == 0 then Some([])
    else
      var kv := Split(parts[0], '=');
      if |kv| != 2 then None
      else match DecodePairs(parts[1..], unquote)
        case None => None
        case Some(rest) => Some([(unquote(kv[0]), unquote(kv[1]))] + rest)
  }

  /** Reads a form-encoded string back into its pairs. */
  function DecodeForm(s: string, unquote: string -> string): Option<seq<Pair>>
  {
    if s == "" then Some([]) else DecodePairs(Split(s, '&'), unquote)
  }

  lemma {:induction false} DecodeEncoded(pairs: seq<Pair>, quote: string -> string, unquote: string -> string)
    requires EscapesSeparators(quote) && Inverts(unquote, quote)
    ensures DecodePairs(EncodeAll(pairs, quote), unquote) == Some(pairs)
  {
    if |pairs| > 0 {
      var enc := EncodeAll(pairs, quote);
      var k, v := quote(pairs[0].0), quote(pairs[0].1);
      assert enc[0] == Join([k, v], '=');
      SplitJoin([k, v], '=');
      assert enc[1..] == EncodeAll(pairs[1..], quote);
      DecodeEncoded(pairs[1..], quote, unquote);
      assert [pairs[0]] + pairs[1..] == pairs;
    }
  }

  /** Decoding what urlencode wrote gives back exactly the pairs, in order. */
  lemma {:induction false} UrlencodeRoundTrip(pairs: seq<Pair>, quote: string -> string, unquote: string -> string)
    requires EscapesSeparators(quote) && Inverts(unquote, quote)
    ensures DecodeForm(Urlencode(pairs, quote), unquote) == Some(pairs)
  {
    var enc := EncodeAll(pairs, quote);
    if |pairs| > 0 {
      assert |enc[0]| > 0 by { assert enc[0] == quote(pairs[0].0) + "=" + quote(pairs[0].1); }
      assert forall p :: p in enc ==> '&' !in p by {
        forall p | p in enc ensures '&' !in p {
          var i :| 0 <= i < |enc| && enc[i] == p;
          assert p == quote(pairs[i].0) + "=" + quote(pairs[i].1);
        }
      }
      SplitJoin(enc, '&');
    }
    DecodeEncoded(pairs, quote, unquote);
  }
}
