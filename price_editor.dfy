/**
 * The editable price table (`TabelaDePrecosComGrid`): a price object whose
 * bands are shown in key order, at most one of them in edit mode with an edit
 * buffer, and a save that writes the buffer back under that band. The price
 * object is a sequence of `(band, cell)` entries with distinct bands; a cell
 * holds the value received from the page or the text typed into the buffer.
 */
module PriceEditor {
  import opened Options
  import opened Bands
  import opened PlanData

  /** The notice shown for an empty price object. */
  const NoPriceData: string := "Dados de preço não disponíveis."

  /** A price as the table holds it: a value from the page, or the text typed into the edit buffer. */
  datatype Cell<V> = Stored(v: V) | Typed(text: string)

  /** One row of the grid: shown with its value and an edit button, or in edit mode with the buffer. */
  datatype Row<V> = Viewing(band: string, value: Cell<V>) | Editing(band: string, buffer: Cell<V>)

  /** What the component renders: the notice, or one row per band. */
  datatype View<V> = Unavailable(notice: string) | Grid(rows: seq<Row<V>>)

  /** `precosIniciais || {}`: the prop's entries as stored cells, or no entries. */
  function Initial<V>(prop: Option<Table<V>>): (r: seq<Entry<Cell<V>>>)
    ensures prop.None? ==> r == []
    ensures prop.Some? ==> |r| == |prop.value|
    ensures prop.Some? ==> forall i :: 0 <= i < |r| ==> r[i] == (prop.value[i].0, Stored(prop.value[i].1))
  {
    if prop.None? then []
    else seq(|prop.value|, i requires 0 <= i < |prop.value| => (prop.value[i].0, Stored(prop.value[i].1)))
  }

  /** `Object.keys`: the bands, in order. */
  function Keys<W>(xs: seq<Entry<W>>): (r: seq<string>)
    ensures |r| == |xs| && forall i :: 0 <= i < |xs| ==> r[i] == xs[i].0
  {
    seq(|xs|, i requires 0 <= i < |xs| => xs[i].0)
  }

  /** The value under `band`, if any (the first one; bands are distinct in a price object). */
  function Lookup<W>(xs: seq<Entry<W>>, band: string): (r: Option<W>)
    ensures r.None? <==> band !in Keys(xs)
    ensures forall i :: 0 <= i < |xs| && xs[i].0 == band && (forall j :: 0 <= j < i ==> xs[j].0 != band) ==> r == Some(xs[i].1)
  {
    if xs == [] then None
    else if xs[0].0 == band then Some(xs[0].1)
    else
      assert Keys(xs) == [xs[0].0] + Keys(xs[1..]);
      assert forall i :: 1 <= i < |xs| ==> xs[1..][i - 1] == xs[i];
      Lookup(xs[1..], band)
  }

  /**
   * `{ ...precos, [band]: w }`: the entries copied in order, then `band` set to `w`,
   * in place when present and appended otherwise.
   */
  function SetBand<W>(xs: seq<Entry<W>>, band: string, w: W): seq<Entry<W>> {
    if xs == [] then [(band, w)]
    else if xs[0].0 == band then [(band, w)] + xs[1..]
    else [xs[0]] + SetBand(xs[1..], band, w)
  }

  lemma KeysConcat<W>(a: seq<Entry<W>>, b: seq<Entry<W>>)
    ensures Keys(a + b) == Keys(a) + Keys(b)
  {
  }

  /** Setting a band keeps the key order, appending the band when it is new. */
  lemma {:induction false} SetBandKeys<W>(xs: seq<Entry<W>>, band: string, w: W)
    ensures Keys(SetBand(xs, band, w)) == if band in Keys(xs) then Keys(xs) else Keys(xs) + [band]
  {
    if xs != [] {
      var head, tail := xs[0], xs[1..];
      assert xs == [head] + tail;
      KeysConcat([head], tail);
      assert Keys([head]) == [head.0];
      if head.0 == band {
        KeysConcat([(band, w)], tail);
        assert Keys([(band, w)]) == [band];
      } else {
        var rest := SetBand(tail, band, w);
        SetBandKeys(tail, band, w);
        KeysConcat([head], rest);
        assert band in Keys(xs) <==> band in Keys(tail);
      }
    }
  }

  /** After setting a band, it holds the new value and every other band its old one. */
  lemma {:induction false} SetBandLookup<W>(xs: seq<Entry<W>>, band: string, w: W, other: string)
    ensures Lookup(SetBand(xs, band, w), band) == Some(w)
    ensures other != band ==> Lookup(SetBand(xs, band, w), other) == Lookup(xs, other)
  {
    if xs != [] && xs[0].0 != band {
      var r := SetBand(xs, band, w);
      SetBandLookup(xs[1..], band, w, other);
      assert r[0] == xs[0] && r[1..] == SetBand(xs[1..], band, w);
    }
  }

  /** Saving keeps the bands distinct. */
  lemma SetBandKeepsDistinct<W>(xs: seq<Entry<W>>, band: string, w: W)
    requires DistinctBands(xs)
    ensures DistinctBands(SetBand(xs, band, w))
  {
    var r := SetBand(xs, band, w);
    SetBandKeys(xs, band, w);
    forall i, j | 0 <= i < j < |r| ensures r[i].0 != r[j].0 {
      assert r[i].0 == Keys(r)[i] && r[j].0 == Keys(r)[j];
      if band !in Keys(xs) && j == |xs| {
        assert Keys(xs)[i] == xs[i].0;
      }
    }
  }

  /** The grid rows: each band in order, in edit mode exactly when it is the band being edited. */
  function Rows<V>(precos: seq<Entry<Cell<V>>>, editing: Option<string>, buffer: Cell<V>): (rows: seq<Row<V>>)
    ensures |rows| == |precos|
    ensures forall i :: 0 <= i < |rows| ==>
      rows[i] == if editing == Some(precos[i].0) then Editing(precos[i].0, buffer) else Viewing(precos[i].0, precos[i].1)
  {
    seq(|precos|, i requires 0 <= i < |precos| =>
      if editing == Some(precos[i].0) then Editing(precos[i].0, buffer) else Viewing(precos[i].0, precos[i].1))
  }

  /** The component's output: the notice for an empty price object, otherwise the grid. */
  function Render<V>(precos: seq<Entry<Cell<V>>>, editing: Option<string>, buffer: Cell<V>): (v: View<V>)
    ensures v == Unavailable(NoPriceData) <==> |precos| == 0
    ensures |precos| > 0 ==> v == Grid(Rows(precos, editing, buffer))
  {
    if |Keys(precos)| == 0 then Unavailable(NoPriceData) else Grid(Rows(precos, editing, buffer))
  }

  /** With distinct bands, at most one row is in edit mode. */
  lemma AtMostOneEditing<V>(precos: seq<Entry<Cell<V>>>, editing: Option<string>, buffer: Cell<V>)
    ensures var v := Render(precos, editing, buffer);
      DistinctBands(precos) && v.Grid? ==> forall i, j :: 0 <= i < j < |v.rows| ==> !(v.rows[i].Editing? && v.rows[j].Editing?)
  {
    var v := Render(precos, editing, buffer);
    if DistinctBands(precos) && v.Grid? {
      forall i, j | 0 <= i < j < |v.rows| ensures !(v.rows[i].Editing? && v.rows[j].Editing?) {
        assert precos[i].0 != precos[j].0;
      }
    }
  }

  class Editor<V> {
    var precos: seq<Entry<Cell<V>>>
    var editingFaixa: Option<string>
    var currentValue: Cell<V>

    /** The price object has distinct bands. */
    ghost predicate Valid()
      reads this
    {
      DistinctBands(precos)
    }

    /** Mounting with the prop: its prices, nothing in edit mode, an empty buffer. */
    constructor(prop: Option<Table<V>>)
      requires prop.Some? ==> DistinctBands(prop.value)
      ensures Valid()
      ensures precos == Initial(prop) && editingFaixa == None && currentValue == Typed("")
    {
      precos := Initial(prop);
      editingFaixa := None;
      currentValue := Typed("");
    }

    /** A new prop replaces the prices; edit mode and buffer are kept. */
    method ReceiveProp(prop: Option<Table<V>>)
      requires prop.Some? ==> DistinctBands(prop.value)
      modifies this
      ensures Valid()
      ensures precos == Initial(prop) && editingFaixa == old(editingFaixa) && currentValue == old(currentValue)
    {
      precos := Initial(prop);
    }

    /** `handleEdit(faixa, valor)`: that band enters edit mode with its value in the buffer. */
    method HandleEdit(faixa: string, valor: Cell<V>)
      requires Valid()
      modifies this
      ensures Valid()
      ensures editingFaixa == Some(faixa) && currentValue == valor && precos == old(precos)
    {
      editingFaixa := Some(faixa);
      currentValue := valor;
    }

    /** `handleCancel`: no band in edit mode; prices and buffer unchanged. */
    method HandleCancel()
      requires Valid()
      modifies this
      ensures Valid()
      ensures editingFaixa == None && precos == old(precos) && currentValue == old(currentValue)
    {
      editingFaixa := None;
    }

    /** Typing into the edit input: the buffer becomes the typed text. */
    method Type(text: string)
      requires Valid()
      modifies this
      ensures Valid()
      ensures currentValue == Typed(text) && precos == old(precos) && editingFaixa == old(editingFaixa)
    {
      currentValue := Typed(text);
    }

    /**
     * `handleSave(faixa)`: the band's value becomes the buffer, every other band
     * keeps its value and the band order is kept (a new band is appended); edit
     * mode ends.
     */
    method HandleSave(faixa: string)
      requires Valid()
      modifies this
      ensures Valid()
      ensures Lookup(precos, faixa) == Some(old(currentValue))
      ensures forall other :: other != faixa ==> Lookup(precos, other) == Lookup(old(precos), other)
      ensures Keys(precos) == if faixa in Keys(old(precos)) then Keys(old(precos)) else Keys(old(precos)) + [faixa]
      ensures editingFaixa == None && currentValue == old(currentValue)
    {
      SetBandKeepsDistinct(precos, faixa, currentValue);
      SetBandKeys(precos, faixa, currentValue);
      forall other | other != faixa
        ensures Lookup(SetBand(precos, faixa, currentValue), other) == Lookup(precos, other)
      {
        SetBandLookup(precos, faixa, currentValue, other);
      }
      SetBandLookup(precos, faixa, currentValue, faixa);
      var novosPrecos := SetBand(precos, faixa, currentValue);
      precos := novosPrecos;
      editingFaixa := None;
    }

    /** What the component renders now. */
    function View(): (v: View<V>)
      reads this
      ensures v == Unavailable(NoPriceData) <==> |precos| == 0
      ensures |precos| > 0 ==> v == Grid(Rows(precos, editingFaixa, currentValue))
      ensures Valid() && v.Grid? ==> forall i, j :: 0 <= i < j < |v.rows| ==> !(v.rows[i].Editing? && v.rows[j].Editing?)
    {
      AtMostOneEditing(precos, editingFaixa, currentValue);
      Render(precos, editingFaixa, currentValue)
    }
  }
}
