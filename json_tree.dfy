/** Decoded JSON documents as Python's json.loads hands them to the message
    normaliser, together with Python's subscript operator on them and the
    "try the whole chain, fall back to None" reading used for every row field. */
module JsonTree {

  datatype Option<+T> = None | Some(value: T)

  datatype Result<+T, +E> = Ok(value: T) | Err(error: E)

  /** A decoded JSON value: None, bool, int, str, list or dict in Python. */
  datatype Json =
    | JNull
    | JBool(b: bool)
    | JNum(n: int)
    | JStr(s: string)
    | JArr(items: seq<Json>)
    | JObj(fields: map<string, Json>)

  /** One subscript `[...]`: a dict key or a non-negative list index. */
  datatype Step = Key(name: string) | Idx(index: nat)

  type Path = seq<Step>

  /** The exceptions Python's subscript operator raises on decoded JSON. */
  datatype PyError = KeyError | IndexError | TypeError

  /** Python's `j[step]` on a decoded JSON value. A dict has only string keys,
      so an integer subscript on it is a missing key; indexing a str gives the
      one-character str at that position; anything else is not subscriptable
      by that kind of key. */
  function Subscript(j: Json, step: Step): (r: Result<Json, PyError>)
    ensures r.Ok? ==> j.JObj? || j.JArr? || j.JStr?
    ensures j.JObj? ==> (r.Ok? <==> step.Key? && step.name in j.fields) &&
                        (r.Ok? ==> r.value == j.fields[step.name])
    ensures j.JArr? ==> (r.Ok? <==> step.Idx? && step.index < |j.items|) &&
                        (r.Ok? ==> r.value == j.items[step.index])
    ensures j.JStr? ==> (r.Ok? <==> step.Idx? && step.index < |j.s|) &&
                        (r.Ok? ==> r.value == JStr([j.s[step.index]]))
    ensures r == Err(TypeError) <==> !(j.JObj? || (step.Idx? && (j.JArr? || j.JStr?)))
  {
    match (j, step)
    case (JObj(m), Key(k)) => if k in m then Ok(m[k]) else Err(KeyError)
    case (JObj(_), Idx(_)) => Err(KeyError)
    case (JArr(xs), Idx(i)) => if i < |xs| then Ok(xs[i]) else Err(IndexError)
    case (JStr(s), Idx(i)) => if i < |s| then Ok(JStr([s[i]])) else Err(IndexError)
    case _ => Err(TypeError)
  }

  /** The value of `j[p0][p1]...[pn]` evaluated inside a bare `try`, with the
      `except` branch giving None: the first step that raises makes the whole
      chain None. Subscripting a str only ever yields a str, never a dict. */
  function Lookup(j: Json, path: Path): (r: Option<Json>)
    ensures path == [] ==> r == Some(j)
    ensures path != [] && Subscript(j, path[0]).Err? ==> r == None
    ensures j.JStr? ==> r == None || r.value.JStr?
    decreases |path|
  {
    if path == [] then Some(j)
    else match Subscript(j, path[0])
      case Err(_) => None
      case Ok(child) => Lookup(child, path[1..])
  }

  /** Continues a lookup that may already have failed. */
  function Continue(o: Option<Json>, path: Path): Option<Json>
  {
    match o
    case None => None
    case Some(v) => Lookup(v, path)
  }

  /** A chain of subscripts splits at any point: looking up `p + q` is looking
      up `p` and then `q` from wherever `p` led. */
  lemma {:induction false} LookupAppend(j: Json, p: Path, q: Path)
    ensures Lookup(j, p + q) == Continue(Lookup(j, p), q)
    decreases |p|
  {
    if p == [] {
      assert p + q == q;
    } else {
      assert (p + q)[0] == p[0];
      assert (p + q)[1..] == p[1..] + q;
      match Subscript(j, p[0]) {
        case Err(_) =>
        case Ok(child) => LookupAppend(child, p[1..], q);
      }
    }
  }

  /** Once a prefix of the chain raises, every longer chain raises too. */
  lemma PrefixFailurePropagates(j: Json, p: Path, q: Path)
    requires Lookup(j, p) == None
    ensures Lookup(j, p + q) == None
  {
    LookupAppend(j, p, q);
  }

  /** Two paths that take different subscripts at some common position. */
  ghost predicate Diverge(a: Path, b: Path)
  {
    exists i :: 0 <= i < |a| && i < |b| && a[i] != b[i]
  }

  /** `j` with key `k` removed from the dict that `p` leads to; `j` itself when
      `p` does not lead to a dict. */
  function DeleteKey(j: Json, p: Path, k: string): Json
    decreases |p|
  {
    if p == [] then
      (if j.JObj? then JObj(j.fields - {k}) else j)
    else
      match (j, p[0])
      case (JObj(m), Key(name)) =>
        if name in m then JObj(m[name := DeleteKey(m[name], p[1..], k)]) else j
      case (JArr(xs), Idx(i)) =>
        if i < |xs| then JArr(xs[i := DeleteKey(xs[i], p[1..], k)]) else j
      case _ => j
  }

  /** After the key is removed, the chain that ends in it raises. */
  lemma {:induction false} DeleteKeyRemoves(j: Json, p: Path, k: string)
    ensures Lookup(DeleteKey(j, p, k), p + [Key(k)]) == None
    decreases |p|
  {
    LookupAppend(DeleteKey(j, p, k), p, [Key(k)]);
    if p != [] {
      match (j, p[0]) {
        case (JObj(m), Key(name)) =>
          if name in m {
            DeleteKeyRemoves(m[name], p[1..], k);
            LookupAppend(m[name := DeleteKey(m[name], p[1..], k)][name], p[1..], [Key(k)]);
          }
        case (JArr(xs), Idx(i)) =>
          if i < |xs| {
            DeleteKeyRemoves(xs[i], p[1..], k);
            LookupAppend(xs[i := DeleteKey(xs[i], p[1..], k)][i], p[1..], [Key(k)]);
          }
        case _ =>
      }
    }
  }

  /** Removing a key leaves every chain that turns away from it unchanged. */
  lemma {:induction false} DeleteKeyElsewhere(j: Json, p: Path, k: string, q: Path)
    requires Diverge(q, p + [Key(k)])
    ensures Lookup(DeleteKey(j, p, k), q) == Lookup(j, q)
    decreases |p|
  {
    var target := p + [Key(k)];
    var i :| 0 <= i < |q| && i < |target| && q[i] != target[i];
    if p == [] {
      assert i == 0 && q[0] != Key(k);
      if j.JObj? {
        assert Subscript(DeleteKey(j, p, k), q[0]) == Subscript(j, q[0]);
      }
    } else if q[0] != p[0] {
      assert Subscript(DeleteKey(j, p, k), q[0]) == Subscript(j, q[0]);
    } else {
      assert i > 0;
      assert target[1..] == p[1..] + [Key(k)];
      assert q[1..][i - 1] != target[1..][i - 1];
      match (j, p[0]) {
        case (JObj(m), Key(name)) =>
          if name in m {
            DeleteKeyElsewhere(m[name], p[1..], k, q[1..]);
          }
        case (JArr(xs), Idx(n)) =>
          if n < |xs| {
            DeleteKeyElsewhere(xs[n], p[1..], k, q[1..]);
          }
        case _ =>
      }
    }
  }

  /** `j` after the assignment `j[p0]...[pn] = v`: the last key is added to or
      overwritten in a dict, a list index must already be in range; `j` itself
      when the chain before the last step does not lead to a dict or list. */
  function ReplaceAt(j: Json, p: Path, v: Json): Json
    decreases |p|
  {
    if p == [] then v
    else
      match (j, p[0])
      case (JObj(m), Key(name)) =>
        if |p| == 1 then JObj(m[name := v])
        else if name in m then JObj(m[name := ReplaceAt(m[name], p[1..], v)])
        else j
      case (JArr(xs), Idx(i)) =>
        if i < |xs| then JArr(xs[i := ReplaceAt(xs[i], p[1..], v)]) else j
      case _ => j
  }

  /** Assigning into a dict that the chain `p` reaches makes the chain
      `p + [Key(k)]` give the assigned value. */
  lemma {:induction false} ReplaceAtSets(j: Json, p: Path, k: string, v: Json)
    requires Lookup(j, p).Some? && Lookup(j, p).value.JObj?
    ensures Lookup(ReplaceAt(j, p + [Key(k)], v), p + [Key(k)]) == Some(v)
    decreases |p|
  {
    var target := p + [Key(k)];
    if p == [] {
      assert target == [Key(k)];
    } else {
      assert target[0] == p[0] && target[1..] == p[1..] + [Key(k)] && |target| > 1;
      var child := Subscript(j, p[0]).value;
      ReplaceAtSets(child, p[1..], k, v);
    }
  }

  /** Assigning at `p` leaves every chain that turns away from `p` unchanged. */
  lemma {:induction false} ReplaceAtElsewhere(j: Json, p: Path, v: Json, q: Path)
    requires Diverge(q, p)
    ensures Lookup(ReplaceAt(j, p, v), q) == Lookup(j, q)
    decreases |p|
  {
    var i :| 0 <= i < |q| && i < |p| && q[i] != p[i];
    if q[0] != p[0] {
      assert Subscript(ReplaceAt(j, p, v), q[0]) == Subscript(j, q[0]);
    } else {
      assert i > 0;
      assert q[1..][i - 1] != p[1..][i - 1];
      match (j, p[0]) {
        case (JObj(m), Key(name)) =>
          if name in m {
            ReplaceAtElsewhere(m[name], p[1..], v, q[1..]);
          }
        case (JArr(xs), Idx(n)) =>
          if n < |xs| {
            ReplaceAtElsewhere(xs[n], p[1..], v, q[1..]);
          }
        case _ =>
      }
    }
  }
}
