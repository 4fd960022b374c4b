/**
 * The options panel of one family of strategies (the control tab): a
 * combo box of strategy names, and one line edit per option of the
 * selected strategy. Option values live in the shared parameter
 * dictionary at `pars[name + "_options"][strategy][option]`.
 *
 * Python's `int()`, `float()` and `str()` on option values are not part of
 * this model: they are the functions of a `Conversions` value.
 */
module OptionsPanels {
  import opened Wrappers
  import opened Params
  import Text

  /** The element type of an option: `int` or `float`. */
  datatype NumKind = IntKind | FloatKind

  /**
   * One entry of the information dictionary: `(type, bounds, description)`.
   * A scalar option has optional lower and upper bounds; a list option has
   * the type of its elements in the bounds slot.
   */
  datatype OptionInfo =
    | Scalar(num: NumKind, lo: Option<real>, hi: Option<real>, desc: string)
    | ListOf(elem: NumKind, desc: string)

  /** Python's `int(text)` and `float(text)` (`None` where they raise) and `str(value)`. */
  datatype Conversions = Conversions(toInt: string -> Option<int>, toFloat: string -> Option<real>, str: Value -> string)

  /** The range of a `QIntValidator` whose bottom or top was never set. */
  const IntBottom: int := -2147483648
  const IntTop: int := 2147483647

  function OptionsKey(name: string): string { name + "_options" }
  function SelectionKey(name: string): string { name + "_name" }

  lemma KeysDiffer(name: string)
    ensures OptionsKey(name) != SelectionKey(name)
  {
  }

  /** `type1(text)` for a numeric type. */
  function ParseNum(conv: Conversions, kind: NumKind, text: string): (r: Option<Value>)
    ensures r.Some? ==> (if kind == IntKind then r.value.Int? else r.value.Real?)
  {
    match kind
    case IntKind => (match conv.toInt(text) case None => None case Some(n) => Some(Int(n)))
    case FloatKind => (match conv.toFloat(text) case None => None case Some(x) => Some(Real(x)))
  }

  /** `[bounds(s) for s in pieces]`: a list only when every element converts. */
  function ParseAll(conv: Conversions, kind: NumKind, pieces: seq<string>): (r: Option<seq<Value>>)
    ensures r.Some? <==> forall i :: 0 <= i < |pieces| ==> ParseNum(conv, kind, pieces[i]).Some?
    ensures r.Some? ==> |r.value| == |pieces|
    ensures r.Some? ==> forall i :: 0 <= i < |pieces| ==> ParseNum(conv, kind, pieces[i]) == Some(r.value[i])
    decreases |pieces|
  {
    if |pieces| == 0 then Some([])
    else
      match ParseNum(conv, kind, pieces[0])
      case None => None
      case Some(v) =>
        match ParseAll(conv, kind, pieces[1..])
        case None => None
        case Some(vs) => Some([v] + vs)
  }

  /** The list handler's parse of the typed text: split at every comma and convert each piece. */
  function ParseList(conv: Conversions, kind: NumKind, text: string): (r: Option<seq<Value>>)
    ensures r.Some? ==> |r.value| == Text.Count(text, ',') + 1
  {
    Text.SplitCount(text, ',');
    ParseAll(conv, kind, Text.Split(text, ','))
  }

  /**
   * `', '.join([str(c) for c in items])`, written as a join at `,` whose
   * every piece after the first starts with the space of the separator.
   */
  function ListPieces(conv: Conversions, items: seq<Value>): (pieces: seq<string>)
    ensures |pieces| == |items|
    ensures |items| > 0 ==> pieces[0] == conv.str(items[0])
    ensures forall i :: 0 < i < |items| ==> pieces[i] == " " + conv.str(items[i])
  {
    if |items| == 0 then []
    else [conv.str(items[0])] + seq(|items| - 1, i requires 0 <= i < |items| - 1 => " " + conv.str(items[i + 1]))
  }

  /** Each piece of a displayed list is free of commas when every element's text is. */
  lemma ListPiecesFree(conv: Conversions, items: seq<Value>)
    ensures (forall i :: 0 <= i < |items| ==> ',' !in conv.str(items[i])) ==>
      forall k :: 0 <= k < |items| ==> ',' !in ListPieces(conv, items)[k]
  {
    var pieces := ListPieces(conv, items);
    if forall i :: 0 <= i < |items| ==> ',' !in conv.str(items[i]) {
      forall k | 0 <= k < |pieces| ensures ',' !in pieces[k] {
        if k > 0 {
          assert pieces[k] == " " + conv.str(items[k]);
        }
      }
    }
  }

  /**
   * The text a list option's line edit shows. When no element's text holds
   * a comma, splitting it at the commas gives back one piece per element.
   */
  function ListText(conv: Conversions, items: seq<Value>): (t: string)
    ensures |items| == 0 ==> t == ""
    ensures 0 < |items| && (forall i :: 0 <= i < |items| ==> ',' !in conv.str(items[i])) ==>
      Text.Split(t, ',') == ListPieces(conv, items)
  {
    var pieces := ListPieces(conv, items);
    ListPiecesFree(conv, items);
    if 0 < |items| && (forall i :: 0 <= i < |items| ==> ',' !in conv.str(items[i])) then
      Text.SplitJoin(pieces, ',');
      Text.Join(pieces, ',')
    else
      Text.Join(pieces, ',')
  }

  /**
   * Displaying a list and committing the displayed text unchanged gives the
   * same list back, provided no element's text holds a comma and each
   * element converts back from its text, with or without a leading space.
   */
  lemma ListTextRoundTrip(conv: Conversions, kind: NumKind, items: seq<Value>)
    requires 0 < |items|
    requires forall i :: 0 <= i < |items| ==> ',' !in conv.str(items[i])
    requires forall i :: 0 <= i < |items| ==> ParseNum(conv, kind, conv.str(items[i])) == Some(items[i])
    requires forall i :: 0 <= i < |items| ==> ParseNum(conv, kind, " " + conv.str(items[i])) == Some(items[i])
    ensures ParseList(conv, kind, ListText(conv, items)) == Some(items)
  {
    var pieces := ListPieces(conv, items);
    assert Text.Split(ListText(conv, items), ',') == pieces;
    var r := ParseAll(conv, kind, pieces);
    assert forall i :: 0 <= i < |pieces| ==> ParseNum(conv, kind, pieces[i]) == Some(items[i]);
    assert r.value == items;
  }

  /** An empty list is shown as an empty line, which never converts: it can be kept but not re-entered. */
  lemma EmptyListNotReentered(conv: Conversions, kind: NumKind)
    requires ParseNum(conv, kind, "") == None
    ensures ParseList(conv, kind, ListText(conv, [])) == None
  {
  }

  /** The validator's acceptance of a scalar value: inside the bounds that were set, or the type's defaults. */
  function InBounds(info: OptionInfo, v: Value): (ok: bool)
    requires info.Scalar?
    ensures ok ==> v.Int? || v.Real?
    ensures ok && v.Int? && info.lo.None? ==> IntBottom <= v.i
    ensures ok && v.Int? && info.hi.None? ==> v.i <= IntTop
    ensures ok && info.lo.Some? ==> info.lo.value <= (if v.Int? then v.i as real else v.r)
    ensures ok && info.hi.Some? ==> (if v.Int? then v.i as real else v.r) <= info.hi.value
    ensures v.Real? && info.lo.None? && info.hi.None? ==> ok
  {
    match v
    case Int(n) =>
      && (if info.lo.Some? then info.lo.value else IntBottom as real) <= n as real
      && n as real <= (if info.hi.Some? then info.hi.value else IntTop as real)
    case Real(x) =>
      && (info.lo.None? || info.lo.value <= x)
      && (info.hi.None? || x <= info.hi.value)
    case _ => false
  }

  /** The value an accepted scalar edit stores: `type1(text)`, when the validator lets the text through. */
  function Accepted(conv: Conversions, info: OptionInfo, text: string): (r: Option<Value>)
    requires info.Scalar?
    ensures r.Some? <==> ParseNum(conv, info.num, text).Some? && InBounds(info, ParseNum(conv, info.num, text).value)
    ensures r.Some? ==> r == ParseNum(conv, info.num, text)
  {
    var v := ParseNum(conv, info.num, text);
    if v.Some? && InBounds(info, v.value) then v else None
  }

  /** The dictionary holds a store of options under `name + "_options"`. */
  predicate HasStore(p: map<string, Value>, name: string)
  {
    OptionsKey(name) in p && p[OptionsKey(name)].Dict?
  }

  /** `pars[name + "_options"]`: strategy name to its option values. */
  function Store(p: map<string, Value>, name: string): map<string, Value>
    requires HasStore(p, name)
  {
    p[OptionsKey(name)].entries
  }

  /** Strategy `s` can be displayed: it has information and stored values for every option it lists. */
  predicate Ready(store: map<string, Value>, info: map<string, map<string, OptionInfo>>, s: string)
  {
    && s in info && s in store && store[s].Dict?
    && (forall k :: k in info[s] ==> k in store[s].entries)
    && (forall k :: k in info[s] && info[s][k].ListOf? ==> store[s].entries[k].List?)
  }

  /** The texts of all line edits `from_dict` builds for a strategy. */
  function Texts(conv: Conversions, infos: map<string, OptionInfo>, values: map<string, Value>): (t: map<string, string>)
    requires forall k :: k in infos ==> k in values && (infos[k].ListOf? ==> values[k].List?)
    ensures t.Keys == infos.Keys
    ensures forall k :: k in infos && infos[k].Scalar? ==> t[k] == conv.str(values[k])
    ensures forall k :: k in infos && infos[k].ListOf? ==> t[k] == ListText(conv, values[k].items)
  {
    map k | k in infos :: if infos[k].ListOf? then ListText(conv, values[k].items) else conv.str(values[k])
  }

  /**
   * What `setup` leaves in the dictionary: the defaults under
   * `name + "_options"` and the first strategy under `name + "_name"`,
   * each only where the key is absent.
   */
  function SetupPars(p: map<string, Value>, name: string, defaults: map<string, Value>, first: string): (r: map<string, Value>)
    ensures r.Keys == p.Keys + {OptionsKey(name), SelectionKey(name)}
    ensures forall k :: k in p ==> r[k] == p[k]
    ensures OptionsKey(name) !in p ==> r[OptionsKey(name)] == Dict(defaults)
    ensures SelectionKey(name) !in p ==> r[SelectionKey(name)] == Text(first)
  {
    KeysDiffer(name);
    var withOptions := if OptionsKey(name) in p then p else p[OptionsKey(name) := Dict(defaults)];
    if SelectionKey(name) in withOptions then withOptions else withOptions[SelectionKey(name) := Text(first)]
  }

  /** Setting up a second time over the same dictionary changes nothing. */
  lemma SetupParsIdempotent(p: map<string, Value>, name: string, defaults: map<string, Value>, first: string)
    ensures SetupPars(SetupPars(p, name, defaults, first), name, defaults, first) == SetupPars(p, name, defaults, first)
  {
  }

  /**
   * `pars[name + "_options"][s][k] = v`: one value of one strategy replaced,
   * every other strategy, option and dictionary key unchanged.
   */
  function Stored(p: map<string, Value>, name: string, s: string, k: string, v: Value): (r: map<string, Value>)
    requires HasStore(p, name) && s in Store(p, name) && Store(p, name)[s].Dict?
    ensures HasStore(r, name) && r.Keys == p.Keys
    ensures forall key :: key in p && key != OptionsKey(name) ==> r[key] == p[key]
    ensures Store(r, name).Keys == Store(p, name).Keys
    ensures forall t :: t in Store(p, name) && t != s ==> Store(r, name)[t] == Store(p, name)[t]
    ensures Store(r, name)[s] == Dict(Store(p, name)[s].entries[k := v])
  {
    var store := Store(p, name);
    p[OptionsKey(name) := Dict(store[s := Dict(store[s].entries[k := v])])]
  }

  /** A stored value is kept by later edits of other options, and storing its old value again restores the dictionary. */
  lemma StoredCommute(p: map<string, Value>, name: string, s: string, k1: string, v1: Value, k2: string, v2: Value)
    requires HasStore(p, name) && s in Store(p, name) && Store(p, name)[s].Dict? && k1 != k2
    ensures Store(Stored(Stored(p, name, s, k1, v1), name, s, k2, v2), name)[s].entries[k1] == v1
    ensures k1 in Store(p, name)[s].entries ==>
      Stored(Stored(p, name, s, k1, v1), name, s, k1, Store(p, name)[s].entries[k1]) == p
  {
    var once := Stored(p, name, s, k1, v1);
    if k1 in Store(p, name)[s].entries {
      var back := Stored(once, name, s, k1, Store(p, name)[s].entries[k1]);
      assert Store(back, name)[s].entries == Store(p, name)[s].entries;
      assert Store(back, name) == Store(p, name);
      assert back == p;
    }
  }

  class OptionsPanel {
    /** The family name: the prefix of the two dictionary keys. */
    const name: string
    /** The combo box entries: the keys of the defaults dictionary, in order. */
    const strategies: seq<string>
    /** `infod`: for each strategy, the information of each of its options. */
    const info: map<string, map<string, OptionInfo>>
    const conv: Conversions
    /** The shared parameter dictionary. */
    var pars: map<string, Value>
    /** The strategy whose options are displayed. */
    var selection: string
    /** The text of each displayed line edit, by option name. */
    var texts: map<string, string>

    ghost predicate Valid()
      reads this
    {
      && |strategies| > 0 && selection in strategies
      && HasStore(pars, name)
      && Ready(Store(pars, name), info, selection)
      && texts.Keys == info[selection].Keys
    }

    /** The option values of the displayed strategy. */
    function Values(): map<string, Value>
      reads this
      requires Valid()
    {
      Store(pars, name)[selection].entries
    }

    /**
     * `setup`: fill in the defaults and the selection where absent, select
     * the first strategy and display its options.
     */
    constructor (pars0: map<string, Value>, name: string, strategies: seq<string>,
                 defaults: map<string, Value>, info: map<string, map<string, OptionInfo>>, conv: Conversions)
      requires |strategies| > 0 && forall s :: s in strategies <==> s in defaults
      requires HasStore(SetupPars(pars0, name, defaults, strategies[0]), name)
      requires Ready(Store(SetupPars(pars0, name, defaults, strategies[0]), name), info, strategies[0])
      ensures Valid()
      ensures this.name == name && this.strategies == strategies && this.info == info && this.conv == conv
      ensures pars == SetupPars(pars0, name, defaults, strategies[0])
      ensures selection == strategies[0]
      ensures texts == Texts(conv, info[selection], Values())
    {
      this.name, this.strategies, this.info, this.conv := name, strategies, info, conv;
      var first := strategies[0];
      var p := pars0;
      if OptionsKey(name) !in p {
        p := p[OptionsKey(name) := Dict(defaults)];
      }
      if SelectionKey(name) !in p {
        p := p[SelectionKey(name) := Text(first)];
      }
      pars := p;
      selection := first;
      var store := Store(p, name);
      texts := Texts(conv, info[first], store[first].entries);
    }

    /**
     * The combo box switched to `s`: clear the lines and display the
     * options of `s` from the store. Nothing is written; in particular
     * `pars[name + "_name"]` keeps the value `setup` gave it.
     */
    method Select(s: string)
      requires Valid() && s in strategies && Ready(Store(pars, name), info, s)
      modifies this
      ensures Valid()
      ensures pars == old(pars) && selection == s
      ensures texts == Texts(conv, info[s], Values())
    {
      selection := s;
      texts := Texts(conv, info[s], Store(pars, name)[s].entries);
    }

    /** `get_options`: the selected strategy and a copy of its values. */
    function GetOptions(): (r: (string, map<string, Value>))
      reads this
      requires Valid()
      ensures r.0 == selection && r.0 in strategies
      ensures r.1.Keys >= info[selection].Keys
    {
      (selection, Values())
    }

    /**
     * The handler of a scalar line edit. The validator only lets through
     * text that converts and lies within the bounds; that value is stored
     * under the displayed strategy.
     */
    method EditScalar(k: string, text: string)
      requires Valid() && k in info[selection] && info[selection][k].Scalar?
      requires Accepted(conv, info[selection][k], text).Some?
      modifies this
      ensures Valid() && selection == old(selection)
      ensures pars == Stored(old(pars), name, selection, k, Accepted(conv, info[selection][k], text).value)
      ensures texts == old(texts)[k := text]
    {
      var v := Accepted(conv, info[selection][k], text).value;
      pars := Stored(pars, name, selection, k, v);
      texts := texts[k := text];
    }

    /**
     * The handler of a list line edit: store the parsed list when every
     * element converts; otherwise keep the stored list and show it again.
     */
    method EditList(k: string, text: string)
      requires Valid() && k in info[selection] && info[selection][k].ListOf?
      modifies this
      ensures Valid() && selection == old(selection)
      ensures ParseList(conv, info[selection][k].elem, text).Some? ==>
        && pars == Stored(old(pars), name, selection, k, List(ParseList(conv, info[selection][k].elem, text).value))
        && texts == old(texts)[k := text]
      ensures ParseList(conv, info[selection][k].elem, text).None? ==>
        && pars == old(pars)
        && texts == old(texts)[k := ListText(conv, old(Values())[k].items)]
    {
      var parsed := ParseList(conv, info[selection][k].elem, text);
      if parsed.Some? {
        pars := Stored(pars, name, selection, k, List(parsed.value));
        texts := texts[k := text];
      } else {
        texts := texts[k := ListText(conv, Values()[k].items)];
      }
    }
  }

  /** Switching to another strategy and back leaves the options of the first exactly as they were. */
  method SwitchAndBack(panel: OptionsPanel, other: string)
    requires panel.Valid() && other in panel.strategies && Ready(Store(panel.pars, panel.name), panel.info, other)
    modifies panel
    ensures panel.Valid()
    ensures panel.GetOptions() == old(panel.GetOptions())
    ensures panel.pars == old(panel.pars)
  {
    var first := panel.selection;
    panel.Select(other);
    panel.Select(first);
  }
}
