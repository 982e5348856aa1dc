/** The string shapes shared by the three XML record serialisers:
    `<root><row no="1">…</row>…</root>`. Names and values are spliced in
    verbatim; nothing is escaped, so these are the exact strings sent, not
    a claim of well-formed XML. */
module Xml {
  import opened Js

  /** The concatenation of `f` over `xs`, in order. */
  function ConcatMap<T>(xs: seq<T>, f: T -> string): string {
    if xs == [] then "" else f(xs[0]) + ConcatMap(xs[1..], f)
  }

  lemma {:induction false} ConcatMapAppend<T>(xs: seq<T>, x: T, f: T -> string)
    ensures ConcatMap(xs + [x], f) == ConcatMap(xs, f) + f(x)
  {
    if xs == [] {
      assert xs + [x] == [x];
    } else {
      assert (xs + [x])[1..] == xs[1..] + [x];
      ConcatMapAppend(xs[1..], x, f);
    }
  }

  /** One step of a loop that has the pieces of `xs[..i]` after `prefix`
      in `acc` and appends the piece of `xs[i]`. */
  lemma ConcatMapStep<T>(acc: string, piece: string, prefix: string, xs: seq<T>, i: nat, f: T -> string)
    requires i < |xs|
    requires acc == prefix + ConcatMap(xs[..i], f) && piece == f(xs[i])
    ensures acc + piece == prefix + ConcatMap(xs[..i + 1], f)
  {
    assert xs[..i + 1] == xs[..i] + [xs[i]];
    ConcatMapAppend(xs[..i], xs[i], f);
  }

  /** The piece contributed by `xs[k]` sits between the pieces of the
      elements before it and those after it. */
  lemma {:induction false} ConcatMapAt<T>(xs: seq<T>, f: T -> string, k: nat)
    requires k < |xs|
    ensures ConcatMap(xs, f) == ConcatMap(xs[..k], f) + f(xs[k]) + ConcatMap(xs[k + 1..], f)
  {
    if k > 0 {
      ConcatMapAt(xs[1..], f, k - 1);
      assert xs[1..][..k - 1] == xs[1..k];
      assert xs[1..][k - 1] == xs[k];
      assert xs[1..][k..] == xs[k + 1..];
      assert xs[..k][1..] == xs[1..k];
    }
  }

  /** `<tag no="n">` */
  function Open(tag: string, n: nat): string {
    "<" + tag + " no=\"" + NatToString(n) + "\">"
  }

  /** `<tag no="n">body</tag>` */
  function Element(tag: string, n: nat, body: string): string {
    Open(tag, n) + body + "</" + tag + ">"
  }

  /** One `<tag no="k">` element per item, numbered from `first` in order. */
  function Numbered<T>(tag: string, xs: seq<T>, first: nat, body: T -> string): string {
    if xs == [] then "" else Element(tag, first, body(xs[0])) + Numbered(tag, xs[1..], first + 1, body)
  }

  lemma {:induction false} NumberedAppend<T>(tag: string, xs: seq<T>, x: T, first: nat, body: T -> string)
    ensures Numbered(tag, xs + [x], first, body)
         == Numbered(tag, xs, first, body) + Element(tag, first + |xs|, body(x))
  {
    if xs == [] {
      assert xs + [x] == [x];
    } else {
      assert (xs + [x])[1..] == xs[1..] + [x];
      NumberedAppend(tag, xs[1..], x, first + 1, body);
    }
  }

  /** Numbering carries over a split of the items. */
  lemma {:induction false} NumberedConcat<T>(tag: string, xs: seq<T>, ys: seq<T>, first: nat, body: T -> string)
    ensures Numbered(tag, xs + ys, first, body)
         == Numbered(tag, xs, first, body) + Numbered(tag, ys, first + |xs|, body)
  {
    if xs == [] {
      assert xs + ys == ys;
    } else {
      assert (xs + ys)[1..] == xs[1..] + ys;
      NumberedConcat(tag, xs[1..], ys, first + 1, body);
    }
  }

  /** The element numbered `first + k` is the one built from `xs[k]`, with
      the elements of the earlier items before it and of the later ones
      after it. */
  lemma NumberedAt<T>(tag: string, xs: seq<T>, first: nat, body: T -> string, k: nat)
    requires k < |xs|
    ensures Numbered(tag, xs, first, body)
         == Numbered(tag, xs[..k], first, body) + Element(tag, first + k, body(xs[k]))
            + Numbered(tag, xs[k + 1..], first + k + 1, body)
  {
    var before, from := xs[..k], xs[k..];
    assert xs == before + from;
    NumberedConcat(tag, before, from, first, body);
    assert from[0] == xs[k] && from[1..] == xs[k + 1..];
    assert Numbered(tag, from, first + k, body)
        == Element(tag, first + k, body(xs[k])) + Numbered(tag, xs[k + 1..], first + k + 1, body);
  }

  /** `<FL val="name"><![CDATA[value]]></FL>`, the field form of CRM and
      Creator. */
  function CdataField(f: (string, Value)): string {
    "<FL val=\"" + f.0 + "\"><![CDATA[" + JsString(f.1) + "]]></FL>"
  }

  /** `<root>inner</root>` */
  function Document(root: string, inner: string): string {
    "<" + root + ">" + inner + "</" + root + ">"
  }

  /** `data instanceof Array ? data : [data]` */
  function RecordsOf(data: Value): (records: seq<Value>)
    ensures data.Arr? ==> records == data.items
    ensures !data.Arr? ==> records == [data]
  {
    if data.Arr? then data.items else [data]
  }

  /** What `for (var k in record)` visits: the fields of a plain object.
      Other values contribute no fields in this model. */
  function FieldsOf(record: Value): Fields {
    if record.Obj? then record.fields else []
  }
}
