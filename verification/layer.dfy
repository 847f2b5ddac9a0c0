/** The layer base class: a configuration mapping plus a dirty flag
    (matplotlayers/layer.py). The keyword-configuration library the source
    derives from is abstracted as a plain map in which a key is "configured"
    when it is present and not None. */
module LayerCore {

  /** The values a configuration entry can hold. Arrays stand for numpy
      arrays of one or two dimensions. */
  datatype Value =
    | NoneV
    | Flag(b: bool)
    | Num(r: real)
    | Str(s: string)
    | Arr(xs: seq<real>)
    | Mat(rows: seq<seq<real>>)
    | Mappable(serial: nat)     // the artist a drawing call returned
    | Link(layer: Layer)        // a reference to another layer object

  /** The drawing strategy of a layer: which subclass of Layer it is. */
  datatype Kind = Plot | PColorMesh | Colorbar

  type Config = map<string, Value>

  predicate Configured(c: Config, key: string) {
    key in c && c[key] != NoneV
  }

  function Get(c: Config, key: string): Value {
    if key in c then c[key] else NoneV
  }

  /** Configuring is last-write-wins per key; a key given None becomes
      unconfigured, every other key keeps its state. */
  lemma ConfigureSemantics(c: Config, kv: Config, key: string)
    ensures Configured(c + kv, key) <==> (if key in kv then kv[key] != NoneV else Configured(c, key))
    ensures key in kv ==> Get(c + kv, key) == kv[key]
    ensures key !in kv ==> Get(c + kv, key) == Get(c, key)
  {
  }

  /** The entries of `kv` that are specified, that is, not None. */
  function Specified(kv: Config): (r: Config)
    ensures forall k :: k in r <==> Configured(kv, k)
    ensures forall k :: k in r ==> k in kv && r[k] == kv[k]
  {
    map k | k in kv && kv[k] != NoneV :: kv[k]
  }

  /** `key` has the same state, present with the same value or absent, in
      both configurations. */
  predicate Untouched(before: Config, after: Config, key: string) {
    (key in after <==> key in before) && (key in before ==> after[key] == before[key])
  }

  class Layer {
    const kind: Kind
    var config: Config
    var changed: bool

    /** A new layer is dirty: it has never been drawn. */
    constructor (kind: Kind)
      ensures this.kind == kind && config == map[] && changed
    {
      this.kind := kind;
      config := map[];
      changed := true;
    }

    predicate IsConfigured(key: string)
      reads this
    {
      Configured(config, key)
    }

    /** Every configure marks the layer changed, whatever it is given. */
    method Configure(kv: Config)
      modifies this
      ensures config == old(config) + kv
      ensures changed
    {
      SetChanged();
      config := config + kv;
    }

    /** Every unconfigure marks the layer changed. */
    method Unconfigure(keys: set<string>)
      modifies this
      ensures config == old(config) - keys
      ensures changed
    {
      SetChanged();
      config := config - keys;
    }

    method SetChanged()
      modifies this`changed
      ensures changed
    {
      changed := true;
    }

    method UnsetChanged()
      modifies this`changed
      ensures !changed
    {
      changed := false;
    }

    function HasChanged(): bool
      reads this
    {
      changed
    }
  }

  /** Layers compare by identity: two layers built alike, holding the same
      configuration, are still two different layers. */
  method DistinctLayers(kind: Kind, kv: Config) returns (a: Layer, b: Layer)
    ensures a != b
    ensures a.kind == b.kind == kind && a.config == b.config == kv
  {
    a := new Layer(kind);
    a.Configure(kv);
    b := new Layer(kind);
    b.Configure(kv);
  }
}
