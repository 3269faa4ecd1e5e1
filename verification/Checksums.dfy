/** Checksums of configuration data (internal/builder/common.go): the keys sorted, one `key=value` line each,
    hashed. The hash (SHA-256, section 6.2 of FIPS 180-4) is a parameter. */
module Checksums {
  import opened Types

  type Data = map<string, string>

  // ---------- the order of strings ----------

  predicate Less(a: string, b: string) {
    b != [] && (a == [] || a[0] < b[0] || (a[0] == b[0] && Less(a[1..], b[1..])))
  }

  lemma {:induction false} LessIsTransitive(a: string, b: string, c: string)
    requires Less(a, b) && Less(b, c)
    ensures Less(a, c)
  {
    if a != [] && a[0] == b[0] && b[0] == c[0] {
      LessIsTransitive(a[1..], b[1..], c[1..]);
    }
  }

  lemma {:induction false} LessIsTotal(a: string, b: string)
    ensures (if Less(a, b) then 1 else 0) + (if Less(b, a) then 1 else 0) + (if a == b then 1 else 0) == 1
  {
    if a != [] && b != [] && a[0] == b[0] {
      LessIsTotal(a[1..], b[1..]);
      assert a == [a[0]] + a[1..] && b == [b[0]] + b[1..];
    }
  }

  predicate Ascending(keys: seq<string>) {
    forall i, j :: 0 <= i < j < |keys| ==> Less(keys[i], keys[j])
  }

  function Elements(keys: seq<string>): set<string> {
    set k | k in keys
  }

  function Insert(k: string, keys: seq<string>): (r: seq<string>)
    ensures Elements(r) == Elements(keys) + {k}
  {
    if keys == [] then [k]
    else if Less(k, keys[0]) then [k] + keys
    else
      var rest := Insert(k, keys[1..]);
      assert Elements([keys[0]] + rest) == {keys[0]} + Elements(rest);
      assert Elements(keys) == {keys[0]} + Elements(keys[1..]) by {
        assert keys == [keys[0]] + keys[1..];
      }
      [keys[0]] + rest
  }

  function Sort(keys: seq<string>): (r: seq<string>)
    ensures Elements(r) == Elements(keys)
  {
    if keys == [] then []
    else
      assert keys == [keys[0]] + keys[1..];
      Insert(keys[0], Sort(keys[1..]))
  }

  lemma {:induction false} InsertKeepsAscending(k: string, keys: seq<string>)
    requires Ascending(keys) && k !in keys
    ensures Ascending(Insert(k, keys))
  {
    if keys != [] {
      LessIsTotal(k, keys[0]);
      if Less(k, keys[0]) {
        forall j | 0 <= j < |keys| ensures Less(k, keys[j]) {
          if j > 0 {
            LessIsTransitive(k, keys[0], keys[j]);
          }
        }
      } else {
        InsertKeepsAscending(k, keys[1..]);
        var rest := Insert(k, keys[1..]);
        forall r | r in rest ensures Less(keys[0], r) {
          assert r in Elements(rest);
          assert r in Elements(keys[1..]) + {k};
        }
      }
    }
  }

  predicate NoRepeats(keys: seq<string>) {
    forall i, j :: 0 <= i < j < |keys| ==> keys[i] != keys[j]
  }

  lemma {:induction false} SortAscends(keys: seq<string>)
    requires NoRepeats(keys)
    ensures Ascending(Sort(keys))
  {
    if keys != [] {
      SortAscends(keys[1..]);
      assert keys[0] !in Elements(keys[1..]);
      InsertKeepsAscending(keys[0], Sort(keys[1..]));
    }
  }

  lemma EmptyIffNoMember(keys: seq<string>)
    ensures keys == [] <==> forall k :: k !in keys
  {
    if keys != [] {
      assert keys[0] in keys;
    }
  }

  /** A set of keys can be listed in ascending order in one way only. */
  lemma {:induction false} AscendingIsUnique(a: seq<string>, b: seq<string>)
    requires Ascending(a) && Ascending(b) && Elements(a) == Elements(b)
    ensures a == b
  {
    forall k ensures k in a <==> k in b {
      assert k in a <==> k in Elements(a);
      assert k in b <==> k in Elements(b);
    }
    EmptyIffNoMember(a);
    EmptyIffNoMember(b);
    if a == [] {
      return;
    }
    assert a[0] in b && b[0] in a;
    LessIsTotal(a[0], b[0]);
    assert a[0] == b[0];
    forall k ensures k in Elements(a[1..]) <==> k in Elements(b[1..]) {
      HeadIsNotInTail(a);
      HeadIsNotInTail(b);
      assert k in Elements(a) <==> k == a[0] || k in a[1..];
      assert k in Elements(b) <==> k == b[0] || k in b[1..];
    }
    AscendingIsUnique(a[1..], b[1..]);
    assert a == [a[0]] + a[1..] && b == [b[0]] + b[1..];
  }

  lemma HeadIsNotInTail(a: seq<string>)
    requires Ascending(a) && a != []
    ensures a[0] !in a[1..]
  {
    if a[0] in a[1..] {
      var i :| 0 <= i < |a| - 1 && a[1..][i] == a[0];
      assert Less(a[0], a[i + 1]);
      LessIsTotal(a[0], a[0]);
    }
  }

  // ---------- the text that is hashed ----------

  function Line(k: string, v: string): string {
    k + "=" + v + "\n"
  }

  function Text(keys: seq<string>, data: Data): string
    requires forall k :: k in keys ==> k in data
  {
    if keys == [] then "" else Line(keys[0], data[keys[0]]) + Text(keys[1..], data)
  }

  lemma {:induction false} TextSnoc(keys: seq<string>, data: Data, k: string)
    requires forall q :: q in keys + [k] ==> q in data
    ensures forall q :: q in keys ==> q in data
    ensures k in data && Text(keys + [k], data) == Text(keys, data) + Line(k, data[k])
  {
    hide Line;
    assert k in keys + [k];
    assert forall q :: q in keys ==> q in keys + [k];
    if keys == [] {
      assert [k][1..] == [] && keys + [k] == [k];
    } else {
      assert (keys + [k])[1..] == keys[1..] + [k];
      TextSnoc(keys[1..], data, k);
    }
  }

  /** `keys` lists the keys of `data` in ascending order. */
  predicate Canonical(keys: seq<string>, data: Data) {
    Ascending(keys) && Elements(keys) == data.Keys
  }

  /** The text is one and the same whatever order the keys are met in. */
  ghost predicate Serializes(text: string, data: Data) {
    exists keys :: Canonical(keys, data) && (forall k :: k in keys ==> k in data) && text == Text(keys, data)
  }

  lemma SerializationIsUnique(t: string, u: string, data: Data)
    requires Serializes(t, data) && Serializes(u, data)
    ensures t == u
  {
    var a :| Canonical(a, data) && (forall k :: k in a ==> k in data) && t == Text(a, data);
    var b :| Canonical(b, data) && (forall k :: k in b ==> k in data) && u == Text(b, data);
    AscendingIsUnique(a, b);
  }

  /** The keys in whatever order the map yields them. */
  method CollectKeys(data: Data) returns (keys: seq<string>)
    ensures NoRepeats(keys) && Elements(keys) == data.Keys
  {
    keys := [];
    var todo := data.Keys;
    while todo != {}
      invariant todo <= data.Keys && Elements(keys) == data.Keys - todo && NoRepeats(keys)
      decreases |todo|
    {
      var k :| k in todo;
      assert k !in keys by {
        assert k !in Elements(keys);
      }
      assert Elements(keys + [k]) == Elements(keys) + {k};
      keys, todo := keys + [k], todo - {k};
    }
  }

  lemma ElementsAreKeys(keys: seq<string>, data: Data)
    requires Elements(keys) == data.Keys
    ensures forall k :: k in keys <==> k in data
  {
    forall k ensures k in keys <==> k in data {
      assert k in keys <==> k in Elements(keys);
    }
  }

  method Serialize(data: Data) returns (text: string)
    ensures Serializes(text, data)
  {
    hide Ascending, Elements, NoRepeats, Line;
    var keys := CollectKeys(data);
    SortAscends(keys);
    keys := Sort(keys);
    ElementsAreKeys(keys, data);
    text := "";
    for i := 0 to |keys|
      invariant forall k :: k in keys[..i] ==> k in data
      invariant text == Text(keys[..i], data)
    {
      assert keys[..i + 1] == keys[..i] + [keys[i]];
      assert forall k :: k in keys[..i + 1] ==> k in keys;
      TextSnoc(keys[..i], data, keys[i]);
      LineIs(text, keys[i], data[keys[i]]);
      text := text + keys[i] + "=" + data[keys[i]] + "\n";
    }
    assert keys[..|keys|] == keys;
  }

  lemma LineIs(text: string, k: string, v: string)
    ensures text + k + "=" + v + "\n" == text + Line(k, v)
  {
  }

  // ---------- recovering the data ----------

  /** The position of the first `c` in `s`, or the length of `s`. */
  function IndexOf(s: string, c: char): (i: nat)
    ensures i <= |s| && (i < |s| ==> s[i] == c)
  {
    if s == "" || s[0] == c then 0 else 1 + IndexOf(s[1..], c)
  }

  lemma {:induction false} IndexAfter(head: string, c: char, tail: string)
    requires c !in head
    ensures IndexOf(head + [c] + tail, c) == |head|
  {
    if head != "" {
      assert (head + [c] + tail)[1..] == head[1..] + [c] + tail;
      IndexAfter(head[1..], c, tail);
    }
  }

  /** Reads the lines back: the key up to the first `=`, the value up to the next newline. */
  function Parse(text: string): Data
    decreases |text|
  {
    var i := IndexOf(text, '=');
    if i == |text| then map[]
    else
      var rest := text[i + 1..];
      var j := IndexOf(rest, '\n');
      if j == |rest| then map[] else Parse(rest[j + 1..])[text[..i] := rest[..j]]
  }

  predicate Clean(data: Data) {
    forall k :: k in data ==> '=' !in k && '\n' !in data[k]
  }

  lemma ParseOneLine(k: string, v: string, tail: string)
    requires '=' !in k && '\n' !in v
    ensures Parse(Line(k, v) + tail) == Parse(tail)[k := v]
  {
    var text := Line(k, v) + tail;
    assert text == k + ['='] + (v + ['\n'] + tail);
    IndexAfter(k, '=', v + ['\n'] + tail);
    var rest := text[|k| + 1..];
    assert rest == v + ['\n'] + tail;
    IndexAfter(v, '\n', tail);
    assert rest[|v| + 1..] == tail && rest[..|v|] == v && text[..|k|] == k;
  }

  lemma {:induction false} ParseText(keys: seq<string>, data: Data)
    requires Clean(data) && NoRepeats(keys) && forall k :: k in keys ==> k in data
    ensures Parse(Text(keys, data)) == map k | k in keys :: data[k]
  {
    hide Line, Parse;
    if keys == [] {
      ParseNothing();
    } else {
      ParseText(keys[1..], data);
      ParseOneLine(keys[0], data[keys[0]], Text(keys[1..], data));
      assert keys == [keys[0]] + keys[1..];
    }
  }

  lemma ParseNothing()
    ensures Parse("") == map[]
  {
  }

  /** What the parser reads never has `=` in a key or a newline in a value. */
  lemma {:induction false} ParsedIsClean(text: string)
    ensures Clean(Parse(text))
    decreases |text|
  {
    var i := IndexOf(text, '=');
    FirstIsFirst(text, '=');
    if i < |text| {
      var rest := text[i + 1..];
      var j := IndexOf(rest, '\n');
      FirstIsFirst(rest, '\n');
      if j < |rest| {
        ParsedIsClean(rest[j + 1..]);
      }
    }
  }

  lemma CleanIsRecovered(text: string, data: Data)
    requires Serializes(text, data) && Clean(data)
    ensures Parse(text) == data
  {
    hide Parse, Text;
    var keys :| Canonical(keys, data) && (forall k :: k in keys ==> k in data) && text == Text(keys, data);
    forall i, j | 0 <= i < j < |keys| ensures keys[i] != keys[j] {
      LessIsTotal(keys[i], keys[j]);
    }
    ParseText(keys, data);
    assert forall k :: k in data <==> k in Elements(keys);
  }

  /** The parser recovers the data exactly when no key contains `=` and no value a newline. */
  lemma SerializationIsRecoverable(text: string, data: Data)
    requires Serializes(text, data)
    ensures Parse(text) == data <==> Clean(data)
  {
    hide Parse, Serializes, Clean;
    ParsedIsClean(text);
    if Clean(data) {
      CleanIsRecovered(text, data);
    }
  }

  lemma OneLine(k: string, v: string)
    ensures Serializes(k + "=" + v + "\n", map[k := v])
  {
    var data := map[k := v];
    assert [k][1..] == [] && Text([k], data) == Line(k, v) + "";
    assert Canonical([k], data);
  }

  lemma TwoLines(k: string, v: string, l: string, w: string)
    requires Less(k, l)
    ensures Serializes(k + "=" + v + "\n" + l + "=" + w + "\n", map[k := v, l := w])
  {
    var data := map[k := v, l := w];
    LessIsTotal(k, l);
    assert [k, l][1..] == [l] && [l][1..] == [];
    assert data[k] == v && data[l] == w;
    assert Text([l], data) == Line(l, w) + "";
    assert Text([k, l], data) == Line(k, v) + Text([l], data);
    assert Elements([k, l]) == {k, l};
    assert Canonical([k, l], data);
  }

  /** Otherwise it need not: a newline in a value can imitate another entry, and `=` in a key another value. */
  lemma UncleanDataCollide() returns (text: string, text': string)
    ensures Serializes(text, map["a" := "1\nb=2"]) && Serializes(text, map["a" := "1", "b" := "2"])
    ensures Serializes(text', map["a=b" := "c"]) && Serializes(text', map["a" := "b=c"])
  {
    text, text' := "a=1\nb=2\n", "a=b=c\n";
    OneLine("a", "1\nb=2");
    TwoLines("a", "1", "b", "2");
    assert "a" + "=" + "1\nb=2" + "\n" == text && "a" + "=" + "1" + "\n" + "b" + "=" + "2" + "\n" == text;
    OneLine("a=b", "c");
    OneLine("a", "b=c");
    assert "a=b" + "=" + "c" + "\n" == text' && "a" + "=" + "b=c" + "\n" == text';
  }

  // ---------- lists of maps ----------

  /** The checksum of a map that may be missing, for a hash function that renders its digest as text. */
  ghost predicate ChecksumIs(hash: string -> string, data: Option<Data>, sum: string) {
    match data
    case None => sum == ""
    case Some(d) => exists text :: Serializes(text, d) && sum == hash(text)
  }

  method Checksum(hash: string -> string, data: Option<Data>) returns (sum: string)
    ensures ChecksumIs(hash, data, sum)
  {
    if data.None? {
      return "";
    }
    var text := Serialize(data.value);
    sum := hash(text);
  }

  function Join(parts: seq<string>): string {
    if parts == [] then ""
    else if |parts| == 1 then parts[0]
    else parts[0] + "|" + Join(parts[1..])
  }

  function Split(s: string): (parts: seq<string>)
    ensures parts != []
    decreases |s|
  {
    var i := IndexOf(s, '|');
    if i == |s| then [s] else [s[..i]] + Split(s[i + 1..])
  }

  lemma {:induction false} NotFound(s: string, c: char)
    requires c !in s
    ensures IndexOf(s, c) == |s|
  {
    if s != "" {
      NotFound(s[1..], c);
    }
  }

  /** A list is recovered from its join exactly when it is not empty and no part contains the separator. */
  lemma {:induction false} SplitInvertsJoin(parts: seq<string>)
    ensures Split(Join(parts)) == parts <==> parts != [] && forall p :: p in parts ==> '|' !in p
  {
    if parts == [] {
    } else if |parts| == 1 {
      SplitInvertsJoinOfOne(parts[0]);
      assert parts == [parts[0]];
    } else {
      SplitInvertsJoin(parts[1..]);
      var s := Join(parts);
      assert s == parts[0] + ['|'] + Join(parts[1..]);
      assert parts == [parts[0]] + parts[1..];
      if '|' !in parts[0] {
        IndexAfter(parts[0], '|', Join(parts[1..]));
        assert s[|parts[0]| + 1..] == Join(parts[1..]);
        assert s[..|parts[0]|] == parts[0];
      } else {
        SplitPartsAreClean(s);
        assert parts[0] in parts;
      }
    }
  }

  lemma {:induction false} SplitPartsAreClean(s: string)
    ensures forall p :: p in Split(s) ==> '|' !in p
    decreases |s|
  {
    var i := IndexOf(s, '|');
    FirstIsFirst(s, '|');
    if i < |s| {
      SplitPartsAreClean(s[i + 1..]);
    }
  }

  lemma {:induction false} FirstIsFirst(s: string, c: char)
    ensures c !in s[..IndexOf(s, c)]
  {
    if s != "" && s[0] != c {
      FirstIsFirst(s[1..], c);
      assert s[..IndexOf(s, c)] == [s[0]] + s[1..][..IndexOf(s[1..], c)];
    }
  }

  lemma SplitInvertsJoinOfOne(p: string)
    ensures Split(p) == [p] <==> '|' !in p
  {
    if '|' in p {
      SplitPartsAreClean(p);
      assert p in [p];
    } else {
      NotFound(p, '|');
    }
  }

  ghost predicate ChecksumsAre(hash: string -> string, maps: seq<Option<Data>>, sums: seq<string>) {
    |sums| == |maps| && forall i :: 0 <= i < |maps| ==> ChecksumIs(hash, maps[i], sums[i])
  }

  method ListChecksum(hash: string -> string, maps: seq<Option<Data>>) returns (sum: string)
    ensures exists sums :: ChecksumsAre(hash, maps, sums) && sum == hash(Join(sums))
  {
    var checksums: seq<string> := [];
    for i := 0 to |maps|
      invariant |checksums| == i && forall j :: 0 <= j < i ==> ChecksumIs(hash, maps[j], checksums[j])
    {
      var c := Checksum(hash, maps[i]);
      checksums := checksums + [c];
    }
    assert ChecksumsAre(hash, maps, checksums);
    sum := hash(Join(checksums));
  }

  predicate IsDigest(s: string) {
    s != "" && '|' !in s
  }

  ghost predicate AllClean(maps: seq<Option<Data>>) {
    forall i :: 0 <= i < |maps| && maps[i].Some? ==> Clean(maps[i].value)
  }

  /** The texts of these two maps are different and have the same digest. */
  ghost predicate TextsCollide(hash: string -> string, data: Option<Data>, data': Option<Data>) {
    data.Some? && data'.Some?
    && exists t, u :: Serializes(t, data.value) && Serializes(u, data'.value) && t != u && hash(t) == hash(u)
  }

  /** If two non-empty lists of clean maps have the same checksum, they are the same list, or the hash collides on
      their joined checksums, or it collides on the texts of the maps at some position. */
  lemma ListChecksumIsInjective(hash: string -> string, maps: seq<Option<Data>>, sums: seq<string>,
                                maps': seq<Option<Data>>, sums': seq<string>)
    requires forall s :: IsDigest(hash(s))
    requires ChecksumsAre(hash, maps, sums) && ChecksumsAre(hash, maps', sums') && maps != [] && maps' != []
    requires AllClean(maps) && AllClean(maps')
    requires hash(Join(sums)) == hash(Join(sums'))
    ensures maps == maps' || Join(sums) != Join(sums')
            || (|maps| == |maps'| && exists i :: 0 <= i < |maps| && TextsCollide(hash, maps[i], maps'[i]))
  {
    if Join(sums) == Join(sums') {
      forall p | p in sums || p in sums' ensures '|' !in p {
        assert p != "" ==> exists s :: hash(s) == p;
      }
      SplitInvertsJoin(sums);
      SplitInvertsJoin(sums');
      if i :| 0 <= i < |maps| && maps[i] != maps'[i] {
        ChecksumIsInjective(hash, maps[i], maps'[i], sums[i]);
      }
    }
  }

  lemma ChecksumIsInjective(hash: string -> string, data: Option<Data>, data': Option<Data>, sum: string)
    requires forall s :: IsDigest(hash(s))
    requires ChecksumIs(hash, data, sum) && ChecksumIs(hash, data', sum)
    requires (data.Some? ==> Clean(data.value)) && (data'.Some? ==> Clean(data'.value))
    ensures data == data' || TextsCollide(hash, data, data')
  {
    hide Clean, Serializes;
    if data.Some? && data'.Some? {
      var t :| Serializes(t, data.value) && sum == hash(t);
      var u :| Serializes(u, data'.value) && sum == hash(u);
      SerializationIsRecoverable(t, data.value);
      SerializationIsRecoverable(u, data'.value);
    }
  }

  /** On the empty list the join says nothing: it is that of the list of one missing map. */
  lemma EmptyListCollides()
    ensures Join([]) == Join([""])
  {
  }
}
