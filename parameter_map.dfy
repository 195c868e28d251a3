/** The string-to-string dictionary the encoders fill, and the writes that fill it.

    An encoder is described by the sequence of writes it performs (`Entry`), grouped into
    the parts of the request it encodes. Most writes in the encoders are guarded by a null
    check (`if (x != null) data[key] = x;`); an `Entry` records the key and the value if
    the write happens, `None` if it is skipped. `Apply` performs writes on a dictionary one
    after another, as `data[key] = value` does; `Lookup` is the independent reading of the
    same writes: the value of a key is the one stored by its last performed write.
    `ApplyGet` connects the two. */
module ParameterMap {
  import opened Options
  import opened Keys

  datatype Entry = Entry(key: Key, value: Option<string>)

  function Get(m: map<string, string>, s: string): (r: Option<string>)
    ensures r.Some? <==> s in m
    ensures r.Some? ==> r.value == m[s]
  {
    if s in m then Some(m[s]) else None
  }

  /** A later write of a key replaces an earlier one. */
  function Override(later: Option<string>, earlier: Option<string>): Option<string> {
    if later.Some? then later else earlier
  }

  /** The dictionary `m` after the writes `ws`, in order; a skipped write changes nothing. */
  function Apply(m: map<string, string>, ws: seq<Entry>): map<string, string> {
    if ws == [] then m
    else
      var e := ws[|ws| - 1];
      if e.value.Some? then Apply(m, ws[..|ws| - 1])[Render(e.key) := e.value.value]
      else Apply(m, ws[..|ws| - 1])
  }

  /** The value that the last performed write of key `s` in `ws` stores, if any. */
  function Lookup(ws: seq<Entry>, s: string): (r: Option<string>)
    ensures r.None? <==> forall e | e in ws && e.value.Some? :: Render(e.key) != s
  {
    if ws == [] then None
    else if Render(ws[|ws| - 1].key) == s && ws[|ws| - 1].value.Some? then ws[|ws| - 1].value
    else
      assert forall e | e in ws :: e in ws[..|ws| - 1] || e == ws[|ws| - 1];
      Lookup(ws[..|ws| - 1], s)
  }

  /** Performing the writes on a dictionary leaves, for every key, the value of its last
      performed write, or the dictionary's former value when no write touches the key. */
  lemma {:induction false} ApplyGet(m: map<string, string>, ws: seq<Entry>, s: string)
    ensures Get(Apply(m, ws), s) == Override(Lookup(ws, s), Get(m, s))
  {
    if ws != [] {
      ApplyGet(m, ws[..|ws| - 1], s);
    }
  }

  /** A single write. */
  lemma ApplyOne(m: map<string, string>, e: Entry)
    ensures Apply(m, [e]) == if e.value.Some? then m[Render(e.key) := e.value.value] else m
  {
    assert [e][..0] == [];
  }

  /** One more write. */
  lemma ApplySnoc(m: map<string, string>, ws: seq<Entry>, e: Entry)
    ensures Apply(m, ws + [e])
         == if e.value.Some? then Apply(m, ws)[Render(e.key) := e.value.value] else Apply(m, ws)
  {
    assert (ws + [e])[..|ws|] == ws;
  }

  lemma {:induction false} LookupConcat(a: seq<Entry>, b: seq<Entry>, s: string)
    ensures Lookup(a + b, s) == Override(Lookup(b, s), Lookup(a, s))
  {
    if b != [] {
      assert (a + b)[..|a + b| - 1] == a + b[..|b| - 1];
      LookupConcat(a, b[..|b| - 1], s);
    } else {
      assert a + b == a;
    }
  }

  lemma {:induction false} ApplyConcat(m: map<string, string>, a: seq<Entry>, b: seq<Entry>)
    ensures Apply(m, a + b) == Apply(Apply(m, a), b)
  {
    if b != [] {
      assert (a + b)[..|a + b| - 1] == a + b[..|b| - 1];
      ApplyConcat(m, a, b[..|b| - 1]);
    } else {
      assert a + b == a;
    }
  }

  /** The value that the last performed write of the structured key `k` stores. Within the
      encoder's own sections this is what a lookup of the rendered key finds
      (`LookupRendered`). */
  function LookupKey(ws: seq<Entry>, k: Key): (r: Option<string>)
    ensures r.None? <==> forall e | e in ws && e.key == k :: e.value.None?
  {
    if ws == [] then None
    else if ws[|ws| - 1].key == k && ws[|ws| - 1].value.Some? then ws[|ws| - 1].value
    else
      assert forall e | e in ws :: e in ws[..|ws| - 1] || e == ws[|ws| - 1];
      LookupKey(ws[..|ws| - 1], k)
  }

  // Indexing into concatenated groups, one group at a time.

  lemma ConcatLeft<T>(a: seq<T>, b: seq<T>, i: nat)
    requires i < |a|
    ensures (a + b)[i] == a[i]
  {
  }

  lemma ConcatRight<T>(a: seq<T>, b: seq<T>, i: nat)
    requires i < |b|
    ensures (a + b)[|a| + i] == b[i]
  {
  }


  lemma ConcatFirst<T>(a: seq<T>, b: seq<T>, c: seq<T>, d: seq<T>, i: nat)
    requires i < |a|
    ensures (a + b + c + d)[i] == a[i]
  {
  }

  lemma ConcatSecond<T>(a: seq<T>, b: seq<T>, c: seq<T>, d: seq<T>, i: nat)
    requires i < |b|
    ensures (a + b + c + d)[|a| + i] == b[i]
  {
  }

  lemma ConcatThird<T>(a: seq<T>, b: seq<T>, c: seq<T>, d: seq<T>, i: nat)
    requires i < |c|
    ensures (a + b + c + d)[|a| + |b| + i] == c[i]
  {
  }

  lemma ConcatFourth<T>(a: seq<T>, b: seq<T>, c: seq<T>, d: seq<T>, i: nat)
    requires i < |d|
    ensures (a + b + c + d)[|a| + |b| + |c| + i] == d[i]
  {
  }

  /** A single write is what a lookup of its own key finds. */
  lemma LookupKeySingle(k: Key, v: Option<string>)
    ensures LookupKey([Entry(k, v)], k) == v
  {
  }

  lemma {:induction false} LookupKeyConcat(a: seq<Entry>, b: seq<Entry>, k: Key)
    ensures LookupKey(a + b, k) == Override(LookupKey(b, k), LookupKey(a, k))
  {
    if b != [] {
      assert (a + b)[..|a + b| - 1] == a + b[..|b| - 1];
      LookupKeyConcat(a, b[..|b| - 1], k);
    } else {
      assert a + b == a;
    }
  }

  /** A key that only one write targets holds that write's value, or nothing when the write
      is skipped. */
  lemma {:induction false} LookupKeyUnique(ws: seq<Entry>, e: Entry)
    requires e in ws
    requires forall f | f in ws && f.key == e.key :: f == e
    ensures LookupKey(ws, e.key) == e.value
  {
    var last := ws[|ws| - 1];
    if last.key != e.key {
      assert e in ws[..|ws| - 1] by {
        assert ws == ws[..|ws| - 1] + [last];
      }
      LookupKeyUnique(ws[..|ws| - 1], e);
    } else if e.value.None? {
      assert forall f | f in ws && f.key == e.key :: f.value.None?;
    }
  }

  /** No two writes of `ws` target the same key. */
  predicate KeysDistinct(ws: seq<Entry>) {
    forall i, j | 0 <= i < j < |ws| :: ws[i].key != ws[j].key
  }

  /** In writes to distinct keys, each key holds its own write's value. */
  lemma LookupKeyDistinct(ws: seq<Entry>, i: nat)
    requires i < |ws| && KeysDistinct(ws)
    ensures LookupKey(ws, ws[i].key) == ws[i].value
  {
    forall f | f in ws && f.key == ws[i].key
      ensures f == ws[i]
    {
      var j :| 0 <= j < |ws| && ws[j] == f;
      assert i == j;
    }
    LookupKeyUnique(ws, ws[i]);
  }

  /** Among the encoder's own keys, a lookup by rendered name finds the write of the
      structured key: no other owned key renders to the same name. */
  lemma {:induction false} LookupRendered(ws: seq<Entry>, k: Key)
    requires Owned(k)
    requires forall e | e in ws :: Owned(e.key)
    ensures Lookup(ws, Render(k)) == LookupKey(ws, k)
  {
    if ws != [] {
      var last := ws[|ws| - 1];
      assert last in ws;
      if Render(last.key) == Render(k) {
        RenderInjective(last.key, k);
      }
      assert forall e | e in ws[..|ws| - 1] :: e in ws;
      LookupRendered(ws[..|ws| - 1], k);
    }
  }

  /** The dictionary `m` after the parts of a request are written one after another. */
  function ApplyAll(m: map<string, string>, parts: seq<seq<Entry>>): map<string, string> {
    if parts == [] then m
    else Apply(ApplyAll(m, parts[..|parts| - 1]), parts[|parts| - 1])
  }

  lemma ApplyAllSnoc(m: map<string, string>, parts: seq<seq<Entry>>, p: seq<Entry>)
    ensures ApplyAll(m, parts + [p]) == Apply(ApplyAll(m, parts), p)
  {
    assert (parts + [p])[..|parts|] == parts;
  }

  /** A run of parts recorded one at a time is the run written out. */
  lemma AppendFour(x: seq<seq<Entry>>, a: seq<Entry>, b: seq<Entry>, c: seq<Entry>, d: seq<Entry>)
    ensures x + [a] + [b] + [c] + [d] == x + [a, b, c, d]
  {
  }

  lemma AppendFive(x: seq<seq<Entry>>, a: seq<Entry>, b: seq<Entry>, c: seq<Entry>, d: seq<Entry>, e: seq<Entry>)
    ensures x + [a] + [b] + [c] + [d] + [e] == x + [a, b, c, d, e]
  {
  }

  lemma {:induction false} ApplyAllUntouched(m: map<string, string>, parts: seq<seq<Entry>>, s: string)
    requires forall i | 0 <= i < |parts| :: Lookup(parts[i], s).None?
    ensures Get(ApplyAll(m, parts), s) == Get(m, s)
  {
    if parts != [] {
      var init := parts[..|parts| - 1];
      ApplyGet(ApplyAll(m, init), parts[|parts| - 1], s);
      ApplyAllUntouched(m, init, s);
    }
  }

  /** When only part `t` writes `s`, the value of `s` is decided by that part alone. */
  lemma {:induction false} ApplyAllOne(m: map<string, string>, parts: seq<seq<Entry>>, t: nat, s: string)
    requires t < |parts|
    requires forall i | 0 <= i < |parts| && i != t :: Lookup(parts[i], s).None?
    ensures Get(ApplyAll(m, parts), s) == Override(Lookup(parts[t], s), Get(m, s))
  {
    var init := parts[..|parts| - 1];
    ApplyGet(ApplyAll(m, init), parts[|parts| - 1], s);
    if t == |parts| - 1 {
      ApplyAllUntouched(m, init, s);
    } else {
      ApplyAllOne(m, init, t, s);
    }
  }

  /** When only parts `t` and, later, `u` write `s`, a write by `u` wins. */
  lemma {:induction false} ApplyAllTwo(m: map<string, string>, parts: seq<seq<Entry>>, t: nat, u: nat, s: string)
    requires t < u < |parts|
    requires forall i | 0 <= i < |parts| && i != t && i != u :: Lookup(parts[i], s).None?
    ensures Get(ApplyAll(m, parts), s)
         == Override(Lookup(parts[u], s), Override(Lookup(parts[t], s), Get(m, s)))
  {
    var init := parts[..|parts| - 1];
    ApplyGet(ApplyAll(m, init), parts[|parts| - 1], s);
    if u == |parts| - 1 {
      ApplyAllOne(m, init, t, s);
    } else {
      ApplyAllTwo(m, init, t, u, s);
    }
  }

  /** The value of an owned key after an encoder's parts are written, when every part but
      one (`p`, the caller's pass-through parameters) writes only keys of its own section and
      no two parts share a section: the key's own part decides it, except that a
      pass-through parameter of the same name written later wins, or one written earlier
      is replaced. A key of a section no part has is decided by the pass-through part
      alone. */
  lemma OwnedKeyValue(parts: seq<seq<Entry>>, secs: seq<Section>, p: nat, k: Key)
    requires |secs| == |parts| && p < |parts| && Owned(k)
    requires forall i | 0 <= i < |parts| && i != p :: secs[i] != Section.PassThrough && secs[i] != Unclaimed
    requires forall i | 0 <= i < |parts| && i != p :: forall e | e in parts[i] :: SectionOf(e.key) == secs[i]
    requires forall i, j | 0 <= i < j < |parts| && i != p && j != p :: secs[i] != secs[j]
    ensures forall t | 0 <= t < p && secs[t] == SectionOf(k) ::
      Get(ApplyAll(map[], parts), Render(k))
        == Override(Lookup(parts[p], Render(k)), LookupKey(parts[t], k))
    ensures forall t | p < t < |parts| && secs[t] == SectionOf(k) ::
      Get(ApplyAll(map[], parts), Render(k))
        == Override(LookupKey(parts[t], k), Lookup(parts[p], Render(k)))
    ensures (forall i | 0 <= i < |parts| && i != p :: secs[i] != SectionOf(k)) ==>
      Get(ApplyAll(map[], parts), Render(k)) == Lookup(parts[p], Render(k))
  {
    var s := Render(k);
    forall i | 0 <= i < |parts| && i != p
      ensures Lookup(parts[i], s) == LookupKey(parts[i], k)
      ensures secs[i] != SectionOf(k) ==> Lookup(parts[i], s).None?
    {
      LookupRendered(parts[i], k);
    }
    forall t | 0 <= t < |parts| && t != p && secs[t] == SectionOf(k)
      ensures forall i | 0 <= i < |parts| && i != t && i != p :: Lookup(parts[i], s).None?
    {
    }
    forall t | 0 <= t < p && secs[t] == SectionOf(k)
      ensures Get(ApplyAll(map[], parts), s) == Override(Lookup(parts[p], s), LookupKey(parts[t], k))
    {
      ApplyAllTwo(map[], parts, t, p, s);
    }
    forall t | p < t < |parts| && secs[t] == SectionOf(k)
      ensures Get(ApplyAll(map[], parts), s) == Override(LookupKey(parts[t], k), Lookup(parts[p], s))
    {
      ApplyAllTwo(map[], parts, p, t, s);
    }
    if forall i | 0 <= i < |parts| && i != p :: secs[i] != SectionOf(k) {
      ApplyAllOne(map[], parts, p, s);
    }
  }

  /** A string that is no owned key's rendering holds only what the pass-through part wrote. */
  lemma ForeignValue(parts: seq<seq<Entry>>, secs: seq<Section>, p: nat, s: string)
    requires |secs| == |parts| && p < |parts|
    requires forall i | 0 <= i < |parts| && i != p :: secs[i] != Section.PassThrough && secs[i] != Unclaimed
    requires forall i | 0 <= i < |parts| && i != p :: forall e | e in parts[i] :: SectionOf(e.key) == secs[i]
    requires forall k: Key | Owned(k) :: Render(k) != s
    ensures Get(ApplyAll(map[], parts), s) == Lookup(parts[p], s)
  {
    forall i | 0 <= i < |parts| && i != p
      ensures Lookup(parts[i], s).None?
    {
      assert forall e | e in parts[i] :: Owned(e.key);
    }
    ApplyAllOne(map[], parts, p, s);
  }
}
