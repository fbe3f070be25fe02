/**
 * Prompt templates filled the way `str.format(**keywords)` fills them. A template is
 * read as `string.Formatter.parse` reads it: a run of chunks, each some literal text
 * followed by a named `{field}`, then a literal tail. A field with no keyword raises
 * `KeyError` (modelled as `None`); keywords that name no field are ignored.
 */
module Templates {
  import opened Wrappers
  import opened Text

  /** Literal text followed by the replacement field `{field}`. */
  datatype Chunk = Chunk(literal: string, field: string)

  datatype Template = Template(chunks: seq<Chunk>, tail: string)

  /** The placeholder names of a template. */
  function Slots(t: Template): set<string>
  {
    set c | c in t.chunks :: c.field
  }

  /** `t.format(**keywords)`; `None` when a field has no keyword. */
  function Format(t: Template, keywords: map<string, string>): Option<string>
  {
    FormatChunks(t.chunks, t.tail, keywords)
  }

  function FormatChunks(chunks: seq<Chunk>, tail: string, keywords: map<string, string>): Option<string>
  {
    if chunks == [] then Some(tail)
    else
      var rest := FormatChunks(chunks[1..], tail, keywords);
      if chunks[0].field in keywords && rest.Some? then
        Some(chunks[0].literal + keywords[chunks[0].field] + rest.value)
      else None
  }

  /** Filling fails exactly when some field has no keyword. */
  lemma FormatSucceeds(t: Template, keywords: map<string, string>)
    ensures Format(t, keywords).Some? <==> Slots(t) <= keywords.Keys
  {
    ChunksFilled(t.chunks, t.tail, keywords);
  }

  lemma {:induction false} ChunksFilled(chunks: seq<Chunk>, tail: string, keywords: map<string, string>)
    ensures FormatChunks(chunks, tail, keywords).Some? <==> forall c :: c in chunks ==> c.field in keywords
  {
    if chunks != [] {
      ChunksFilled(chunks[1..], tail, keywords);
      assert chunks[0] in chunks;
      assert forall c :: c in chunks ==> c == chunks[0] || c in chunks[1..];
    }
  }

  /** Only the fields' keywords reach the text: keyword maps that agree on them give
      the same result, whatever else they hold. */
  lemma FormatSeesOnlySlots(t: Template, k1: map<string, string>, k2: map<string, string>)
    requires forall n :: n in Slots(t) ==> (n in k1 <==> n in k2)
    requires forall n :: n in Slots(t) && n in k1 && n in k2 ==> k1[n] == k2[n]
    ensures Format(t, k1) == Format(t, k2)
  {
    ChunksSeeOnlyFields(t.chunks, t.tail, k1, k2);
  }

  lemma {:induction false} ChunksSeeOnlyFields(chunks: seq<Chunk>, tail: string, k1: map<string, string>, k2: map<string, string>)
    requires forall c :: c in chunks ==> (c.field in k1 <==> c.field in k2)
    requires forall c :: c in chunks && c.field in k1 && c.field in k2 ==> k1[c.field] == k2[c.field]
    ensures FormatChunks(chunks, tail, k1) == FormatChunks(chunks, tail, k2)
  {
    if chunks != [] {
      assert chunks[0] in chunks;
      ChunksSeeOnlyFields(chunks[1..], tail, k1, k2);
    }
  }

  /** A keyword's value appears verbatim in the filled text when its field is used. */
  lemma FormatContainsSlotValue(t: Template, keywords: map<string, string>, n: string)
    requires Slots(t) <= keywords.Keys
    requires n in Slots(t)
    ensures Format(t, keywords).Some?
    ensures Contains(Format(t, keywords).value, keywords[n])
  {
    FormatSucceeds(t, keywords);
    var c :| c in t.chunks && c.field == n;
    ChunksContainFieldValue(t.chunks, t.tail, keywords, n, c);
  }

  lemma {:induction false} ChunksContainFieldValue(chunks: seq<Chunk>, tail: string, keywords: map<string, string>, n: string, c: Chunk)
    requires forall d :: d in chunks ==> d.field in keywords
    requires c in chunks && c.field == n
    ensures FormatChunks(chunks, tail, keywords).Some?
    ensures Contains(FormatChunks(chunks, tail, keywords).value, keywords[n])
  {
    ChunksFilled(chunks, tail, keywords);
    ChunksFilled(chunks[1..], tail, keywords);
    assert forall d :: d in chunks[1..] ==> d in chunks;
    var r := FormatChunks(chunks, tail, keywords).value;
    var rest := FormatChunks(chunks[1..], tail, keywords).value;
    var v := keywords[n];
    var head := chunks[0].literal;
    if chunks[0].field == n {
      assert r == head + v + rest;
      assert r[|head|..|head| + |v|] == v;
      assert OccursAt(r, v, |head|);
    } else {
      ChunksContainFieldValue(chunks[1..], tail, keywords, n, c);
      var i: nat :| OccursAt(rest, v, i);
      var front := head + keywords[chunks[0].field];
      assert r == front + rest;
      assert r[|front| + i..|front| + i + |v|] == rest[i..i + |v|];
      assert OccursAt(r, v, |front| + i);
    }
  }
}
