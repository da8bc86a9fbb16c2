/** The key-path configuration store that the tool drivers write into
    (`chip.set`, `chip.set(..., clobber=False)`, `chip.add`, `chip.get`).
    Only the `value` field of each parameter is modelled; a key-path is the
    list of key names together with the step and index the value is bound to
    (`global` when it is not bound to a node). An absent key stands for a
    parameter that still holds its default. */
module Store {

  const GLOBAL := "global"

  datatype Key = Key(path: seq<string>, step: string, index: string)

  /** A parameter value: a string, a number, a boolean or a list of strings. */
  datatype Value = Str(s: string) | Num(n: int) | Bool(b: bool) | Strs(items: seq<string>)

  type Config = map<Key, Value>

  /** A key that is not bound to a step and index. */
  function Global(path: seq<string>): Key
  {
    Key(path, GLOBAL, GLOBAL)
  }

  /** The list held at `k`, or the empty list when `k` is unset. */
  function Items(cfg: Config, k: Key): seq<string>
  {
    if k in cfg && cfg[k].Strs? then cfg[k].items else []
  }

  /** A boolean parameter read for truth: an unset one is false. */
  predicate Flag(cfg: Config, k: Key)
  {
    k in cfg && cfg[k] == Bool(true)
  }

  /** `set(..., clobber=True)`: the value is replaced. */
  function Assign(cfg: Config, k: Key, v: Value): (r: Config)
    ensures k in r && r[k] == v
    ensures forall j :: j in cfg && j != k ==> j in r && r[j] == cfg[j]
    ensures r.Keys == cfg.Keys + {k}
  {
    cfg[k := v]
  }

  /** `set(..., clobber=False)`: a value already set is kept. */
  function AssignDefault(cfg: Config, k: Key, v: Value): (r: Config)
    ensures k in cfg ==> r == cfg
    ensures k !in cfg ==> r == cfg[k := v]
  {
    if k in cfg then cfg else cfg[k := v]
  }

  /** `add`: the items are appended to the list held at `k`. */
  function Append(cfg: Config, k: Key, items: seq<string>): (r: Config)
    ensures Items(r, k) == Items(cfg, k) + items
    ensures forall j :: j in cfg && j != k ==> j in r && r[j] == cfg[j]
    ensures r.Keys == cfg.Keys + {k}
  {
    cfg[k := Strs(Items(cfg, k) + items)]
  }

  /** Appending to one key leaves the items of every other key as they were. */
  lemma AppendElsewhere(cfg: Config, k: Key, items: seq<string>, j: Key)
    requires j != k
    ensures Items(Append(cfg, k, items), j) == Items(cfg, j)
  {
  }

  /** Setting one key leaves every other key present or absent, and its
      value, as it was. */
  lemma AssignElsewhere(cfg: Config, k: Key, v: Value, j: Key)
    requires j != k
    ensures (j in Assign(cfg, k, v)) == (j in cfg)
    ensures j in cfg ==> Assign(cfg, k, v)[j] == cfg[j]
  {
  }

  /** The same for a default. */
  lemma AssignDefaultElsewhere(cfg: Config, k: Key, v: Value, j: Key)
    requires j != k
    ensures (j in AssignDefault(cfg, k, v)) == (j in cfg)
    ensures j in cfg ==> AssignDefault(cfg, k, v)[j] == cfg[j]
  {
  }

  /** Two `add` calls on the same key are one `add` of both lists. */
  lemma AppendTwice(cfg: Config, k: Key, a: seq<string>, b: seq<string>)
    ensures Append(Append(cfg, k, a), k, b) == Append(cfg, k, a + b)
  {
    assert Items(cfg, k) + a + b == Items(cfg, k) + (a + b);
  }

  /** Adding nothing to a list that is already set changes nothing. */
  lemma AppendNothing(cfg: Config, k: Key)
    requires k in cfg && cfg[k].Strs?
    ensures Append(cfg, k, []) == cfg
  {
    assert Items(cfg, k) + [] == cfg[k].items;
  }

  class Chip {
    var cfg: Config

    constructor (initial: Config)
      ensures cfg == initial
    {
      cfg := initial;
    }

    method Set(k: Key, v: Value)
      modifies this
      ensures cfg == Assign(old(cfg), k, v)
    {
      cfg := cfg[k := v];
    }

    method SetDefault(k: Key, v: Value)
      modifies this
      ensures cfg == AssignDefault(old(cfg), k, v)
    {
      if k !in cfg {
        cfg := cfg[k := v];
      }
    }

    method Add(k: Key, items: seq<string>)
      modifies this
      ensures cfg == Append(old(cfg), k, items)
    {
      cfg := cfg[k := Strs(Items(cfg, k) + items)];
    }
  }
}
