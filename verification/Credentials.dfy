/** The byte streams that the operator feeds to SHA-256: `SecretHash` (one secret, with separators)
    and `ComputeSecretHash` (several secrets, without separators). Strings stand for byte sequences.
    SHA-256 itself is a parameter: any function of the exact bytes written to it. */
module Credentials {

  type Data = map<string, string>

  // ---------------------------------------------------------------- byte-wise order of keys

  /** Go's string order: lexicographic on bytes, a proper prefix comes first. */
  predicate Below(a: string, b: string) {
    |b| > 0 && (|a| == 0 || a[0] < b[0] || (a[0] == b[0] && Below(a[1..], b[1..])))
  }

  lemma BelowTransitive(a: string, b: string, c: string)
    requires Below(a, b) && Below(b, c)
    ensures Below(a, c)
  {
  }

  lemma BelowIrreflexive(a: string)
    ensures !Below(a, a)
  {
  }

  lemma {:induction false} BelowTotal(a: string, b: string)
    requires a != b
    ensures Below(a, b) || Below(b, a)
  {
    if |a| > 0 && |b| > 0 && a[0] == b[0] {
      assert a == [a[0]] + a[1..] && b == [b[0]] + b[1..];
      BelowTotal(a[1..], b[1..]);
    }
  }

  predicate Ascending(keys: seq<string>) {
    forall i, j :: 0 <= i < j < |keys| ==> Below(keys[i], keys[j])
  }

  function Elements(keys: seq<string>): set<string> {
    set k | k in keys
  }

  lemma ElementsConcat(a: seq<string>, b: seq<string>)
    ensures Elements(a + b) == Elements(a) + Elements(b)
  {
    forall k: string ensures k in a + b <==> k in a || k in b {
    }
  }

  /** A set of keys has only one ascending enumeration. */
  lemma {:induction false} AscendingUnique(a: seq<string>, b: seq<string>)
    requires Ascending(a) && Ascending(b) && Elements(a) == Elements(b)
    ensures a == b
    decreases |a|
  {
    assert |a| > 0 ==> a[0] in Elements(a);
    assert |b| > 0 ==> b[0] in Elements(b);
    if |a| > 0 {
      var i :| 0 <= i < |a| && a[i] == b[0];
      var j :| 0 <= j < |b| && b[j] == a[0];
      if a[0] != b[0] {
        BelowTransitive(a[0], b[0], a[0]);
      }
      BelowIrreflexive(a[0]);
      forall k: string
        ensures k in a[1..] <==> k in Elements(a) && k != a[0]
        ensures k in b[1..] <==> k in Elements(b) && k != b[0]
      {
        if k in a && k != a[0] {
          var m :| 0 <= m < |a| && a[m] == k;
          assert a[1..][m - 1] == k;
        }
        if k in b && k != b[0] {
          var m :| 0 <= m < |b| && b[m] == k;
          assert b[1..][m - 1] == k;
        }
      }
      assert Elements(a[1..]) == Elements(b[1..]);
      AscendingUnique(a[1..], b[1..]);
      assert a == [a[0]] + a[1..] && b == [b[0]] + b[1..];
    }
  }

  /** One step of the sort: a new key goes before the first key that is not below it. */
  method InsertKey(sorted: seq<string>, k: string) returns (r: seq<string>)
    requires Ascending(sorted) && k !in sorted
    ensures Ascending(r) && Elements(r) == Elements(sorted) + {k}
  {
    var p := 0;
    while p < |sorted| && Below(sorted[p], k)
      invariant 0 <= p <= |sorted|
      invariant forall i :: 0 <= i < p ==> Below(sorted[i], k)
    {
      p := p + 1;
    }
    Inserted(sorted, k, p);
    r := sorted[..p] + [k] + sorted[p..];
  }

  lemma Inserted(sorted: seq<string>, k: string, p: nat)
    requires Ascending(sorted) && k !in sorted && p <= |sorted|
    requires forall i :: 0 <= i < p ==> Below(sorted[i], k)
    requires p < |sorted| ==> !Below(sorted[p], k)
    ensures var r := sorted[..p] + [k] + sorted[p..]; Ascending(r) && Elements(r) == Elements(sorted) + {k}
  {
    InsertedAscends(sorted, k, p);
    assert sorted == sorted[..p] + sorted[p..];
    ElementsConcat(sorted[..p], sorted[p..]);
    ElementsConcat(sorted[..p], [k]);
    ElementsConcat(sorted[..p] + [k], sorted[p..]);
  }

  lemma InsertedAscends(sorted: seq<string>, k: string, p: nat)
    requires Ascending(sorted) && k !in sorted && p <= |sorted|
    requires forall i :: 0 <= i < p ==> Below(sorted[i], k)
    requires p < |sorted| ==> !Below(sorted[p], k)
    ensures Ascending(sorted[..p] + [k] + sorted[p..])
  {
    var r := sorted[..p] + [k] + sorted[p..];
    forall i | p <= i < |sorted| ensures Below(k, sorted[i]) {
      BelowTotal(k, sorted[p]);
      if i > p { BelowTransitive(k, sorted[p], sorted[i]); }
    }
    forall i | 0 <= i < |r| ensures r[i] == if i < p then sorted[i] else if i == p then k else sorted[i - 1] {}
    forall i, j | 0 <= i < j < |r| ensures Below(r[i], r[j]) {}
  }

  /** Sorting, as the operator uses it: any order of arrival of the same keys gives the same result. */
  method SortStrings(keys: seq<string>) returns (sorted: seq<string>)
    requires forall i, j :: 0 <= i < j < |keys| ==> keys[i] != keys[j]
    ensures Ascending(sorted) && Elements(sorted) == Elements(keys)
  {
    sorted := [];
    for n := 0 to |keys|
      invariant Ascending(sorted) && Elements(sorted) == Elements(keys[..n])
    {
      assert keys[n] !in Elements(keys[..n]);
      assert forall x :: x in sorted ==> x in Elements(sorted);
      sorted := InsertKey(sorted, keys[n]);
      assert keys[..n + 1] == keys[..n] + [keys[n]];
      ElementsConcat(keys[..n], [keys[n]]);
    }
    assert keys[..|keys|] == keys;
  }

  // ---------------------------------------------------------------- the streams

  /** Go's map lookup: a missing key reads as the empty string. */
  function Val(data: Data, k: string): string {
    if k in data then data[k] else ""
  }

  /** What `SecretHash` writes for the given keys, in the given order. */
  function TaggedStream(data: Data, keys: seq<string>): string
  {
    if |keys| == 0 then "" else keys[0] + "=" + Val(data, keys[0]) + "\n" + TaggedStream(data, keys[1..])
  }

  /** What `ComputeSecretHash` writes for one map: keys and values with nothing between them. */
  function BareStream(data: Data, keys: seq<string>): string
  {
    if |keys| == 0 then "" else keys[0] + Val(data, keys[0]) + BareStream(data, keys[1..])
  }

  ghost function Least(keys: set<string>): (m: string)
    requires keys != {}
    ensures m in keys && forall k :: k in keys && k != m ==> Below(m, k)
    decreases |keys|
  {
    var x :| x in keys;
    if keys == {x} then x
    else
      var m := Least(keys - {x});
      assert |keys - {x}| < |keys|;
      if Below(m, x) then m
      else
        BelowTotal(m, x);
        assert forall k :: k in keys && k != x ==> Below(x, k) by {
          forall k | k in keys && k != x ensures Below(x, k) {
            if k != m { BelowTransitive(x, m, k); }
          }
        }
        x
  }

  /** The ascending enumeration of a set of keys. */
  ghost function SortedKeys(keys: set<string>): (s: seq<string>)
    ensures Ascending(s) && Elements(s) == keys
    decreases |keys|
  {
    if keys == {} then []
    else
      var m := Least(keys);
      var rest := SortedKeys(keys - {m});
      Prepended(m, rest);
      [m] + rest
  }

  lemma Prepended(m: string, rest: seq<string>)
    requires Ascending(rest) && forall k :: k in Elements(rest) ==> Below(m, k)
    ensures Ascending([m] + rest) && Elements([m] + rest) == {m} + Elements(rest)
  {
    assert forall i :: 0 <= i < |rest| ==> rest[i] in Elements(rest);
    ElementsConcat([m], rest);
  }

  ghost function SecretStream(data: Data): string {
    TaggedStream(data, SortedKeys(data.Keys))
  }

  ghost function CombinedStream(maps: seq<Data>): string {
    if |maps| == 0 then "" else BareStream(maps[0], SortedKeys(maps[0].Keys)) + CombinedStream(maps[1..])
  }

  lemma {:induction false} BareStreamAppend(data: Data, keys: seq<string>, k: string)
    ensures BareStream(data, keys + [k]) == BareStream(data, keys) + (k + Val(data, k))
  {
    if |keys| == 0 {
      assert keys + [k] == [k];
    } else {
      assert (keys + [k])[1..] == keys[1..] + [k];
      BareStreamAppend(data, keys[1..], k);
    }
  }

  lemma {:induction false} TaggedStreamAppend(data: Data, keys: seq<string>, k: string)
    ensures TaggedStream(data, keys + [k]) == TaggedStream(data, keys) + (k + "=" + Val(data, k) + "\n")
  {
    if |keys| == 0 {
      assert keys + [k] == [k];
      assert TaggedStream(data, [k]) == k + "=" + Val(data, k) + "\n" + "";
    } else {
      assert (keys + [k])[1..] == keys[1..] + [k];
      TaggedStreamAppend(data, keys[1..], k);
    }
  }

  lemma {:induction false} CombinedStreamAppend(maps: seq<Data>, m: Data)
    ensures CombinedStream(maps + [m]) == CombinedStream(maps) + BareStream(m, SortedKeys(m.Keys))
  {
    if |maps| == 0 {
      assert maps + [m] == [m];
    } else {
      assert (maps + [m])[1..] == maps[1..] + [m];
      CombinedStreamAppend(maps[1..], m);
    }
  }

  /** Ranging over a map yields each key once, in an order that the language leaves open. */
  method RangeKeys(data: Data) returns (keys: seq<string>)
    ensures forall i, j :: 0 <= i < j < |keys| ==> keys[i] != keys[j]
    ensures Elements(keys) == data.Keys
  {
    keys := [];
    var todo := data.Keys;
    while todo != {}
      invariant todo <= data.Keys && Elements(keys) == data.Keys - todo
      invariant forall i, j :: 0 <= i < j < |keys| ==> keys[i] != keys[j]
      decreases |todo|
    {
      var k :| k in todo;
      assert forall i :: 0 <= i < |keys| ==> keys[i] in Elements(keys);
      ElementsConcat(keys, [k]);
      keys := keys + [k];
      todo := todo - {k};
    }
  }

  method KeysInOrder(data: Data) returns (keys: seq<string>)
    ensures keys == SortedKeys(data.Keys)
    ensures forall k :: k in keys ==> k in data
  {
    keys := RangeKeys(data);
    keys := SortStrings(keys);
    AscendingUnique(keys, SortedKeys(data.Keys));
    assert forall i :: 0 <= i < |keys| ==> keys[i] in Elements(keys);
  }

  lemma Regroup(a: string, b: string, c: string)
    ensures (a + b) + c == a + (b + c)
  {
  }

  lemma BareStreamStep(data: Data, keys: seq<string>, n: nat)
    requires n < |keys|
    ensures BareStream(data, keys[..n + 1]) == BareStream(data, keys[..n]) + (keys[n] + Val(data, keys[n]))
  {
    assert keys[..n + 1] == keys[..n] + [keys[n]];
    BareStreamAppend(data, keys[..n], keys[n]);
  }

  lemma TaggedStreamStep(data: Data, keys: seq<string>, n: nat)
    requires n < |keys|
    ensures TaggedStream(data, keys[..n + 1]) == TaggedStream(data, keys[..n]) + (keys[n] + "=" + Val(data, keys[n]) + "\n")
  {
    assert keys[..n + 1] == keys[..n] + [keys[n]];
    TaggedStreamAppend(data, keys[..n], keys[n]);
  }

  lemma TakeAll<T>(s: seq<T>)
    ensures s[..|s|] == s
  {
  }

  lemma CombinedStreamStep(maps: seq<Data>, m: nat)
    requires m < |maps|
    ensures CombinedStream(maps[..m + 1]) == CombinedStream(maps[..m]) + BareStream(maps[m], SortedKeys(maps[m].Keys))
  {
    assert maps[..m + 1] == maps[..m] + [maps[m]];
    CombinedStreamAppend(maps[..m], maps[m]);
  }

  /** The loop of `SecretHash`: every key with its value, on a line of its own. */
  method WriteTagged(data: Data) returns (written: string)
    ensures written == SecretStream(data)
  {
    var keys := KeysInOrder(data);
    written := "";
    var n := 0;
    while n < |keys|
      invariant 0 <= n <= |keys|
      invariant written == TaggedStream(data, keys[..n])
    {
      TaggedStreamStep(data, keys, n);
      written := written + (keys[n] + "=" + Val(data, keys[n]) + "\n");
      n := n + 1;
    }
    TakeAll(keys);
  }

  /** `SecretHash`: the result depends on the contents of the map only, not on the order in which it is ranged over. */
  method SecretHash(data: Data, sha256: string -> string) returns (hash: string)
    requires forall s :: |sha256(s)| == 64
    ensures hash == sha256(SecretStream(data))[..16]
  {
    var written := WriteTagged(data);
    hash := sha256(written)[..16];
  }

  /** The inner loop of `ComputeSecretHash`: one map is written after what the hash has already absorbed. */
  method WriteMap(written: string, data: Data) returns (r: string)
    ensures r == written + BareStream(data, SortedKeys(data.Keys))
  {
    var keys := KeysInOrder(data);
    r := written;
    var n := 0;
    while n < |keys|
      invariant 0 <= n <= |keys|
      invariant r == written + BareStream(data, keys[..n])
    {
      BareStreamStep(data, keys, n);
      Regroup(written, BareStream(data, keys[..n]), keys[n] + Val(data, keys[n]));
      r := r + (keys[n] + Val(data, keys[n]));
      n := n + 1;
    }
    TakeAll(keys);
  }

  /** `ComputeSecretHash` over several maps. */
  method ComputeSecretHash(maps: seq<Data>, sha256: string -> string) returns (hash: string)
    ensures hash == sha256(CombinedStream(maps))
  {
    var written := "";
    var m := 0;
    while m < |maps|
      invariant 0 <= m <= |maps|
      invariant written == CombinedStream(maps[..m])
    {
      written := WriteMap(written, maps[m]);
      CombinedStreamStep(maps, m);
      m := m + 1;
    }
    assert maps[..|maps|] == maps;
    hash := sha256(written);
  }

  // ---------------------------------------------------------------- decoding the tagged stream

  /** Splits at the first occurrence of `mark`; a text without `mark` is all head. */
  function Cut(text: string, mark: char): (r: (string, string))
    ensures |r.1| <= |text|
    ensures mark !in r.0
    ensures forall c :: c in r.0 || c in r.1 ==> c in text
  {
    if |text| == 0 then ("", "")
    else if text[0] == mark then ("", text[1..])
    else
      var (head, tail) := Cut(text[1..], mark);
      ([text[0]] + head, tail)
  }

  /** Reads back a stream of `key=value` lines. */
  function Decode(stream: string): Data
    decreases |stream|
  {
    if |stream| == 0 then map[]
    else
      var (line, rest) := Cut(stream, '\n');
      var (key, value) := Cut(line, '=');
      if |rest| < |stream| then Decode(rest)[key := value] else map[]
  }

  lemma {:induction false} CutAt(head: string, mark: char, tail: string)
    requires mark !in head
    ensures Cut(head + [mark] + tail, mark) == (head, tail)
  {
    var text := head + [mark] + tail;
    if |head| == 0 {
      assert text[1..] == tail;
    } else {
      assert text[1..] == head[1..] + [mark] + tail;
      CutAt(head[1..], mark, tail);
      assert [head[0]] + head[1..] == head;
    }
  }

  ghost predicate Separable(data: Data) {
    forall k :: k in data ==> '=' !in k && '\n' !in k && '\n' !in data[k]
  }

  lemma {:induction false} DecodeTagged(data: Data, keys: seq<string>)
    requires Separable(data) && Ascending(keys) && forall k :: k in keys ==> k in data
    ensures Decode(TaggedStream(data, keys)) == map k | k in Elements(keys) :: data[k]
    decreases |keys|
  {
    if |keys| > 0 {
      var k, rest := keys[0], TaggedStream(data, keys[1..]);
      assert TaggedStream(data, keys) == k + "=" + data[k] + "\n" + rest;
      LineDecodes(k, data[k], rest);
      DecodeTagged(data, keys[1..]);
      OneKeyMore(data, keys);
    }
  }

  /** One line comes off the stream as one entry. */
  lemma LineDecodes(k: string, v: string, rest: string)
    requires '=' !in k && '\n' !in k && '\n' !in v
    ensures Decode(k + "=" + v + "\n" + rest) == Decode(rest)[k := v]
  {
    var line := k + "=" + v;
    assert k + "=" + v + "\n" + rest == line + ['\n'] + rest;
    CutAt(line, '\n', rest);
    assert line == k + ['='] + v;
    CutAt(k, '=', v);
  }

  lemma OneKeyMore(data: Data, keys: seq<string>)
    requires |keys| > 0 && Ascending(keys) && forall k :: k in keys ==> k in data
    ensures (map k | k in Elements(keys) :: data[k]) == (map k | k in Elements(keys[1..]) :: data[k])[keys[0] := data[keys[0]]]
  {
    assert forall x :: x in keys <==> x == keys[0] || x in keys[1..];
    assert Elements(keys) == {keys[0]} + Elements(keys[1..]);
    BelowIrreflexive(keys[0]);
  }

  /** Whatever the bytes, decoding yields only separable data. */
  lemma {:induction false} DecodeSeparable(stream: string)
    ensures Separable(Decode(stream))
    decreases |stream|
  {
    if |stream| > 0 {
      var (line, rest) := Cut(stream, '\n');
      if |rest| < |stream| { DecodeSeparable(rest); }
    }
  }

  /** The stream of `SecretHash` can be read back exactly when no key holds `=` or a newline and no value
      holds a newline; the keys that Kubernetes admits always qualify. */
  lemma SecretStreamDecodes(data: Data)
    ensures Decode(SecretStream(data)) == data <==> Separable(data)
  {
    DecodeSeparable(SecretStream(data));
    if Separable(data) {
      DecodeTagged(data, SortedKeys(data.Keys));
    }
  }

  lemma SecretStreamInjective(a: Data, b: Data)
    requires Separable(a) && Separable(b) && SecretStream(a) == SecretStream(b)
    ensures a == b
  {
    SecretStreamDecodes(a);
    SecretStreamDecodes(b);
  }

  lemma SameLines(j: string, k: string, v: string, w: string)
    ensures "" + (j + "=" + (v + "\n" + k + "=" + w) + "\n") == "" + (j + "=" + v + "\n") + (k + "=" + w + "\n")
  {
  }

  /** A newline in a value is enough to lose injectivity: for any two keys there is a one-key secret that
      hashes like a two-key secret. */
  lemma SecretStreamAmbiguous(j: string, k: string, v: string, w: string)
    requires Below(j, k)
    ensures SecretStream(map[j := v + "\n" + k + "=" + w]) == SecretStream(map[j := v, k := w])
    ensures map[j := v + "\n" + k + "=" + w] != map[j := v, k := w]
  {
    BelowIrreflexive(j);
    var x, y := map[j := v + "\n" + k + "=" + w], map[j := v, k := w];
    var one, two := [j], [j, k];
    assert Elements(one) == x.Keys && Elements(two) == y.Keys;
    AscendingUnique(SortedKeys(x.Keys), one);
    AscendingUnique(SortedKeys(y.Keys), two);
    assert one == [] + [j] && two == one + [k];
    TaggedStreamAppend(x, [], j);
    TaggedStreamAppend(y, [], j);
    TaggedStreamAppend(y, one, k);
    SameLines(j, k, v, w);
    assert k in y && k !in x;
  }

  // ---------------------------------------------------------------- the bare stream

  /** Same keys, and values of the same length under each key: what a regenerated secret looks like. */
  ghost predicate SameShape(a: Data, b: Data) {
    a.Keys == b.Keys && forall k :: k in a ==> |a[k]| == |b[k]|
  }

  lemma {:induction false} BareStreamLength(a: Data, b: Data, keys: seq<string>)
    requires SameShape(a, b) && forall k :: k in keys ==> k in a
    ensures |BareStream(a, keys)| == |BareStream(b, keys)|
  {
    if |keys| > 0 { BareStreamLength(a, b, keys[1..]); }
  }

  lemma {:induction false} BareStreamInjective(a: Data, b: Data, keys: seq<string>)
    requires SameShape(a, b) && forall k :: k in keys ==> k in a
    requires BareStream(a, keys) == BareStream(b, keys)
    ensures forall k :: k in keys ==> a[k] == b[k]
  {
    if |keys| > 0 {
      var k := keys[0];
      var ra, rb := BareStream(a, keys[1..]), BareStream(b, keys[1..]);
      var n, m := |k|, |k| + |a[k]|;
      assert BareStream(a, keys)[n..m] == a[k] && BareStream(b, keys)[n..m] == b[k];
      assert BareStream(a, keys)[m..] == ra && BareStream(b, keys)[m..] == rb;
      BareStreamInjective(a, b, keys[1..]);
    }
  }

  lemma Halves(a: string, b: string, c: string, d: string)
    requires |a| == |c| && a + b == c + d
    ensures a == c && b == d
  {
    assert (a + b)[..|a|] == a && (c + d)[..|c|] == c;
    assert (a + b)[|a|..] == b && (c + d)[|c|..] == d;
  }

  lemma OneSecretInjective(a: Data, b: Data)
    requires SameShape(a, b) && BareStream(a, SortedKeys(a.Keys)) == BareStream(b, SortedKeys(a.Keys))
    ensures a == b
  {
    var keys := SortedKeys(a.Keys);
    assert forall k :: k in keys ==> k in Elements(keys);
    BareStreamInjective(a, b, keys);
    forall k | k in a ensures a[k] == b[k] { assert k in Elements(keys); }
  }

  /** Among lists of secrets of the same shape, the combined stream tells any two apart: a regenerated
      secret whose bytes differ anywhere changes what is hashed. */
  lemma {:induction false} CombinedStreamInjective(a: seq<Data>, b: seq<Data>)
    requires |a| == |b| && forall i :: 0 <= i < |a| ==> SameShape(a[i], b[i])
    requires CombinedStream(a) == CombinedStream(b)
    ensures a == b
  {
    if |a| > 0 {
      var keys := SortedKeys(a[0].Keys);
      assert SameShape(a[0], b[0]);
      BareStreamLength(a[0], b[0], keys);
      Halves(BareStream(a[0], keys), CombinedStream(a[1..]), BareStream(b[0], keys), CombinedStream(b[1..]));
      OneSecretInjective(a[0], b[0]);
      CombinedStreamInjective(a[1..], b[1..]);
      assert a == [a[0]] + a[1..] && b == [b[0]] + b[1..];
    }
  }

  /** Without the shape condition the missing separators let different secrets collide: moving the
      border between a key and its value goes unnoticed. */
  lemma CombinedStreamAmbiguous(k: string, c: string, v: string)
    requires c != ""
    ensures CombinedStream([map[k := c + v]]) == CombinedStream([map[k + c := v]])
    ensures map[k := c + v] != map[k + c := v]
  {
    var x, y := map[k := c + v], map[k + c := v];
    var one, two := [k], [k + c];
    assert Elements(one) == x.Keys && Elements(two) == y.Keys;
    AscendingUnique(SortedKeys(x.Keys), one);
    AscendingUnique(SortedKeys(y.Keys), two);
    BareStreamAppend(x, [], k);
    BareStreamAppend(y, [], k + c);
    assert one == [] + [k] && two == [] + [k + c];
    CombinedStreamAppend([], x);
    CombinedStreamAppend([], y);
    assert [] + [x] == [x] && [] + [y] == [y];
    assert |k + c| != |k|;
    assert k in x && k !in y;
  }
}
