/**
 * DocTAPE: the helpers that documentation notebooks use to build prose from
 * lists and to check that what the documentation says matches the code.
 * Pure helpers are functions; the helpers that loop with an early raise or
 * return, or thread an accumulator through a recursion, are methods proved
 * against the functions that specify them.
 */
module DocTape {
  import opened Results

  /** An exception of class `kind`, carrying what its message reports. */
  datatype Raised<+M> = Raised(kind: ErrorType, reason: M)

  // ---------------------------------------------------------------------------
  // gramatical_list

  /** `sep.join(parts)`. */
  function Join(sep: string, parts: seq<string>): string {
    if |parts| == 0 then ""
    else if |parts| == 1 then parts[0]
    else parts[0] + sep + Join(sep, parts[1..])
  }

  /** Each element as it is printed: wrapped in backticks with add_accents. */
  function Decorate(items: seq<string>, addAccents: bool): (r: seq<string>)
    ensures |r| == |items|
    ensures forall i :: 0 <= i < |items| ==>
      r[i] == if addAccents then "`" + items[i] + "`" else items[i]
  {
    if items == [] then []
    else [if addAccents then "`" + items[0] + "`" else items[0]] + Decorate(items[1..], addAccents)
  }

  /** Combines the (string forms of the) elements into English prose joined by
      the conjunction `cc`.  An empty list fails with IndexError, because the
      last element is indexed. */
  function GramaticalList(items: seq<string>, cc: string, addAccents: bool): (r: Result<string, ErrorType>)
    ensures r.Failure? <==> items == []
    ensures r.Failure? ==> r.error == IndexError
    ensures var w := Decorate(items, addAccents);
      && (|items| == 1 ==> r.value == w[0])
      && (|items| == 2 ==> r.value == w[0] + " " + cc + " " + w[1])
      && (|items| >= 3 ==> r.value == Join(", ", w[..|w| - 1]) + ", " + (cc + " " + w[|w| - 1]))
  {
    var w := Decorate(items, addAccents);
    if |w| == 1 then Success(w[0])
    else if |w| == 2 then Success(w[0] + " " + cc + " " + w[1])
    else if |w| == 0 then Failure(IndexError)
    else
      var init, last := w[..|w| - 1], cc + " " + w[|w| - 1];
      JoinSnoc(", ", init, last);
      Success(Join(", ", init + [last]))
  }

  lemma {:induction false} JoinSnoc(sep: string, parts: seq<string>, last: string)
    requires parts != []
    ensures Join(sep, parts + [last]) == Join(sep, parts) + sep + last
  {
    if |parts| > 1 {
      assert (parts + [last])[1..] == parts[1..] + [last];
      JoinSnoc(sep, parts[1..], last);
    } else {
      assert parts + [last] == [parts[0], last];
    }
  }

  /** Number of occurrences of `c` in `s`. */
  function Count(c: char, s: string): nat {
    if s == [] then 0 else (if s[0] == c then 1 else 0) + Count(c, s[1..])
  }

  lemma {:induction false} CountAppend(c: char, a: string, b: string)
    ensures Count(c, a + b) == Count(c, a) + Count(c, b)
  {
    if a != [] {
      assert (a + b)[1..] == a[1..] + b;
      CountAppend(c, a[1..], b);
    } else {
      assert a + b == b;
    }
  }

  lemma {:induction false} JoinCount(c: char, sep: string, parts: seq<string>)
    requires forall i :: 0 <= i < |parts| ==> Count(c, parts[i]) == 0
    ensures Count(c, Join(sep, parts)) == if parts == [] then 0 else (|parts| - 1) * Count(c, sep)
  {
    if |parts| > 1 {
      JoinCount(c, sep, parts[1..]);
      CountAppend(c, parts[0] + sep, Join(sep, parts[1..]));
      CountAppend(c, parts[0], sep);
    }
  }

  /** When neither the elements nor the conjunction contain a comma, the prose
      has exactly one comma per element after the first once there are three or
      more elements (a serial comma before the conjunction), and none for one
      or two elements. */
  lemma ListCommas(items: seq<string>, cc: string, addAccents: bool)
    requires items != []
    requires Count(',', cc) == 0
    requires forall i :: 0 <= i < |items| ==> Count(',', items[i]) == 0
    ensures Count(',', GramaticalList(items, cc, addAccents).value)
         == if |items| >= 3 then |items| - 1 else 0
  {
    var w := Decorate(items, addAccents);
    DecorateCommaFree(items, addAccents);
    if |w| == 2 {
      PairCommas(w[0], cc, w[1]);
    } else if |w| >= 3 {
      SerialCommas(w, cc);
    }
  }

  lemma DecorateCommaFree(items: seq<string>, addAccents: bool)
    requires forall i :: 0 <= i < |items| ==> Count(',', items[i]) == 0
    ensures forall i :: 0 <= i < |items| ==> Count(',', Decorate(items, addAccents)[i]) == 0
  {
    forall i | 0 <= i < |items| ensures Count(',', Decorate(items, addAccents)[i]) == 0 {
      if addAccents {
        CountAppend(',', "`" + items[i], "`");
        CountAppend(',', "`", items[i]);
      }
    }
  }

  lemma PairCommas(a: string, cc: string, b: string)
    requires Count(',', a) == 0 && Count(',', cc) == 0 && Count(',', b) == 0
    ensures Count(',', a + " " + cc + " " + b) == 0
  {
    CountAppend(',', a + " " + cc + " ", b);
    CountAppend(',', a + " " + cc, " ");
    CountAppend(',', a + " ", cc);
    CountAppend(',', a, " ");
  }

  lemma SerialCommas(w: seq<string>, cc: string)
    requires |w| >= 3 && Count(',', cc) == 0
    requires forall i :: 0 <= i < |w| ==> Count(',', w[i]) == 0
    ensures Count(',', Join(", ", w[..|w| - 1]) + ", " + (cc + " " + w[|w| - 1])) == |w| - 1
  {
    var init := w[..|w| - 1];
    var j := Join(", ", init);
    JoinCount(',', ", ", init);
    assert Count(',', ", ") == 1;
    CountAppend(',', j + ", ", cc + " " + w[|w| - 1]);
    CountAppend(',', cc + " ", w[|w| - 1]);
    CountAppend(',', cc, " ");
    CountAppend(',', j, ", ");
  }

  // ---------------------------------------------------------------------------
  // check_value

  /** A compared value: a primitive (string, number, list, tuple, dict, set,
      key view) compares by equality, a one-dimensional numpy array compares
      entry by entry, and any other object by identity. */
  datatype Operand<T> = Primitive(value: T) | Array(elems: seq<T>) | Instance(id: nat)

  /** Why check_value raised: one of its two messages, or numpy refusing to
      reduce an entrywise comparison to one truth value or to broadcast it. */
  datatype Mismatch = NotEqualTo | IsNot | AmbiguousTruth | NotBroadcastable

  /** `val1 != val2` is taken entry by entry: `val1` is not compared by
      identity and one of the two is an array. */
  predicate Entrywise<T>(val1: Operand<T>, val2: Operand<T>) {
    !val1.Instance? && (val1.Array? || val2.Array?)
  }

  /** Length of an operand in an entrywise comparison; a scalar counts as one. */
  function Width<T>(o: Operand<T>): nat {
    if o.Array? then |o.elems| else 1
  }

  /** The only entry of an operand of width one. */
  function Scalar<T>(o: Operand<T>): Operand<T>
    requires Width(o) == 1
  {
    if o.Array? then Primitive(o.elems[0]) else o
  }

  /** check_value as written: a primitive is compared with `!=`, anything else
      with `is not`.  When an array is involved, `!=` yields an array of
      booleans, and `if` on it raises ValueError unless it has at most one
      entry; operands of lengths that do not broadcast raise ValueError first. */
  function CheckValue<T(==)>(val1: Operand<T>, val2: Operand<T>, errorType: ErrorType)
    : (r: Outcome<Raised<Mismatch>>)
    ensures !Entrywise(val1, val2) ==> (r.Pass? <==> val1 == val2)
    ensures !Entrywise(val1, val2) && r.Fail? ==>
      r.error == Raised(errorType, if val1.Primitive? then NotEqualTo else IsNot)
    ensures Entrywise(val1, val2) && Width(val1) >= 2 && Width(val2) >= 2 ==>
      r.Fail? && r.error.kind == ValueError
    ensures Entrywise(val1, val2) && Width(val1) == 1 && Width(val2) == 1 ==>
      (r.Pass? <==> Scalar(val1) == Scalar(val2))
  {
    if val1.Instance? then
      if !(val2.Instance? && val2.id == val1.id) then Fail(Raised(errorType, IsNot)) else Pass
    else if !val2.Array? && !val1.Array? then
      if val1 != val2 then Fail(Raised(errorType, NotEqualTo)) else Pass
    else
      var n1, n2 := Width(val1), Width(val2);
      if n1 != n2 && n1 != 1 && n2 != 1 then Fail(Raised(ValueError, NotBroadcastable))
      else if n1 != 1 && n2 != 1 then
        if n1 >= 2 then Fail(Raised(ValueError, AmbiguousTruth)) else Pass
      else if n1 != 1 || n2 != 1 then
        // one side is a scalar: the result has the other side's length
        var n := if n1 == 1 then n2 else n1;
        if n >= 2 then Fail(Raised(ValueError, AmbiguousTruth)) else Pass
      else if Scalar(val1) != Scalar(val2) then Fail(Raised(errorType, NotEqualTo))
      else Pass
  }

  /** check_value as its documentation describes it: arrays are among the
      values compared by equality, so equal arrays pass. */
  function CheckValueIntended<T(==)>(val1: Operand<T>, val2: Operand<T>, errorType: ErrorType)
    : (r: Outcome<Raised<Mismatch>>)
    ensures r.Pass? <==> val1 == val2
    ensures r.Fail? ==> r.error == Raised(errorType, if val1.Instance? then IsNot else NotEqualTo)
  {
    if val1.Instance? then
      if !(val2.Instance? && val2.id == val1.id) then Fail(Raised(errorType, IsNot)) else Pass
    else
      if val1 != val2 then Fail(Raised(errorType, NotEqualTo)) else Pass
  }

  /** Without an array the two definitions agree. */
  lemma CheckValueAgreesWithoutArrays<T>(val1: Operand<T>, val2: Operand<T>, errorType: ErrorType)
    requires !val1.Array? && !val2.Array?
    ensures CheckValue(val1, val2, errorType) == CheckValueIntended(val1, val2, errorType)
  {
  }

  /** Two equal arrays of two or more entries make check_value raise
      ValueError (whatever error type it was given), where the intended
      comparison passes. */
  lemma EqualArraysRaise<T>(xs: seq<T>, errorType: ErrorType)
    requires |xs| >= 2
    ensures CheckValue(Array(xs), Array(xs), errorType) == Fail(Raised(ValueError, AmbiguousTruth))
    ensures CheckValueIntended(Array(xs), Array(xs), errorType) == Pass
  {
  }

  // ---------------------------------------------------------------------------
  // check_contains

  /** What check_contains is given as the expected values: an iterable, or a
      single value (one without `__class_getitem__`), which it wraps in a list. */
  datatype Expected<T> = Single(item: T) | Iterable(items: seq<T>)

  function Wrapped<T>(e: Expected<T>): seq<T> {
    match e
    case Single(x) => [x]
    case Iterable(xs) => xs
  }

  /** Index of the first element of `xs` that is not in `actual`, or |xs|. */
  function FirstMissing<T(==)>(xs: seq<T>, actual: seq<T>): (k: nat)
    ensures k <= |xs|
    ensures forall j :: 0 <= j < k ==> xs[j] in actual
    ensures k < |xs| ==> xs[k] !in actual
  {
    if xs == [] || xs[0] !in actual then 0 else 1 + FirstMissing(xs[1..], actual)
  }

  /** Succeeds exactly when every expected value is among the actual values;
      otherwise raises `errorType` naming the first missing value. */
  method CheckContains<T(==)>(expected: Expected<T>, actual: seq<T>, errorType: ErrorType)
    returns (r: Outcome<Raised<T>>)
    ensures r.Pass? <==> forall x :: x in Wrapped(expected) ==> x in actual
    ensures r.Fail? ==> var xs := Wrapped(expected);
      FirstMissing(xs, actual) < |xs| && r.error == Raised(errorType, xs[FirstMissing(xs, actual)])
  {
    var xs := Wrapped(expected);
    for i := 0 to |xs|
      invariant forall j :: 0 <= j < i ==> xs[j] in actual
    {
      if xs[i] !in actual {
        return Fail(Raised(errorType, xs[i]));
      }
    }
    return Pass;
  }

  // ---------------------------------------------------------------------------
  // check_args

  /** What check_args is told to expect: a single parameter name (which forces
      a non-exact check), a list of names, or a dict of names to defaults. */
  datatype ExpectedArgs<D> = Name(name: string) | Names(names: seq<string>) | Defaults(defaults: seq<(string, D)>)

  /** Why check_args raised. */
  datatype ArgProblem = SignatureMismatch(mismatch: Mismatch) | NotValidArgument(arg: string) | WrongDefault(arg: string)

  function Keys<D>(pairs: seq<(string, D)>): (r: seq<string>)
    ensures |r| == |pairs| && forall i :: 0 <= i < |pairs| ==> r[i] == pairs[i].0
  {
    if pairs == [] then [] else [pairs[0].0] + Keys(pairs[1..])
  }

  /** The dict built from ordered pairs (a later pair replaces an earlier one). */
  function AsMap<D>(pairs: seq<(string, D)>): (m: map<string, D>)
    ensures m.Keys == set i | 0 <= i < |pairs| :: pairs[i].0
  {
    if pairs == [] then map[]
    else AsMap(pairs[..|pairs| - 1])[pairs[|pairs| - 1].0 := pairs[|pairs| - 1].1]
  }

  /** The parameters of the signature that are not ignored, in order. */
  function Available<D>(signature: seq<(string, D)>, ignore: seq<string>): (r: seq<(string, D)>)
    ensures forall i :: 0 <= i < |r| ==> r[i] in signature && r[i].0 !in ignore
    ensures forall i :: 0 <= i < |signature| && signature[i].0 !in ignore ==> signature[i] in r
  {
    if signature == [] then []
    else (if signature[0].0 in ignore then [] else [signature[0]]) + Available(signature[1..], ignore)
  }

  /** The names the non-exact check iterates over, each with the default it
      expects (dict mode) or None. */
  function Items<D>(expected: ExpectedArgs<D>): (r: seq<(string, Option<D>)>)
    ensures |r| == match expected
                   case Name(_) => 1
                   case Names(ns) => |ns|
                   case Defaults(ds) => |ds|
  {
    match expected
    case Name(n) => [(n, None)]
    case Names(ns) => seq(|ns|, i requires 0 <= i < |ns| => (ns[i], None))
    case Defaults(ds) => seq(|ds|, i requires 0 <= i < |ds| => (ds[i].0, Some(ds[i].1)))
  }

  /** What is wrong with one expected name against the available parameters. */
  function ArgFault<D(==)>(available: map<string, D>, item: (string, Option<D>)): Option<ArgProblem> {
    if item.0 !in available then Some(NotValidArgument(item.0))
    else if item.1.Some? && item.1.value != available[item.0] then Some(WrongDefault(item.0))
    else None
  }

  /** Index of the first expected item with a fault, or |items|. */
  function FirstFault<D(==)>(available: map<string, D>, items: seq<(string, Option<D>)>): (k: nat)
    ensures k <= |items|
    ensures forall j :: 0 <= j < k ==> ArgFault(available, items[j]).None?
    ensures k < |items| ==> ArgFault(available, items[k]).Some?
  {
    if items == [] || ArgFault(available, items[0]).Some? then 0
    else 1 + FirstFault(available, items[1..])
  }

  /** The exact check: check_value on the two dicts (dict mode) or on the two
      sorted name lists (list mode); sorted lists are equal exactly when the
      names are the same multiset.  check_value raises its own default,
      ValueError, whatever error type check_args was given. */
  function ExactCheck<D(==)>(avail: seq<(string, D)>, expected: ExpectedArgs<D>): (r: Outcome<Raised<ArgProblem>>)
    requires !expected.Name?
    ensures r.Pass? <==> if expected.Defaults? then AsMap(avail) == AsMap(expected.defaults)
                         else multiset(Keys(avail)) == multiset(expected.names)
    ensures r.Fail? ==> r.error == Raised(ValueError, SignatureMismatch(NotEqualTo))
  {
    var c := if expected.Defaults? then CheckValueIntended(Primitive(AsMap(avail)), Primitive(AsMap(expected.defaults)), ValueError)
             else CheckValueIntended(Primitive(multiset(Keys(avail))), Primitive(multiset(expected.names)), ValueError);
    match c
    case Pass => Pass
    case Fail(e) => Fail(Raised(e.kind, SignatureMismatch(e.reason)))
  }

  /** The non-exact check: for each expected name in order, raise `errorType`
      if it is not a parameter, or (dict mode) if its default differs. */
  method CheckEachArg<D(==)>(available: map<string, D>, items: seq<(string, Option<D>)>, errorType: ErrorType)
    returns (r: Outcome<Raised<ArgProblem>>)
    ensures r.Pass? <==> forall i :: 0 <= i < |items| ==> ArgFault(available, items[i]).None?
    ensures r.Fail? ==> var k := FirstFault(available, items);
      k < |items| && r.error == Raised(errorType, ArgFault(available, items[k]).value)
  {
    for i := 0 to |items|
      invariant forall j :: 0 <= j < i ==> ArgFault(available, items[j]).None?
    {
      var arg := items[i].0;
      if arg !in available {
        return Fail(Raised(errorType, NotValidArgument(arg)));
      } else if items[i].1.Some? && items[i].1.value != available[arg] {
        return Fail(Raised(errorType, WrongDefault(arg)));
      }
    }
    return Pass;
  }

  /** Checks the expected arguments against a function's signature, given as
      its ordered (name, default) pairs, leaving out the ignored names.  A
      single name forces a non-exact check. */
  method CheckArgs<D(==)>(signature: seq<(string, D)>, expected: ExpectedArgs<D>,
                          ignore: seq<string>, exact: bool, errorType: ErrorType)
    returns (r: Outcome<Raised<ArgProblem>>)
    ensures var avail := Available(signature, ignore);
      if exact && !expected.Name? then r == ExactCheck(avail, expected)
      else
        var items := Items(expected);
        && (r.Pass? <==> forall i :: 0 <= i < |items| ==> ArgFault(AsMap(avail), items[i]).None?)
        && (r.Fail? ==> var k := FirstFault(AsMap(avail), items);
              k < |items| && r.error == Raised(errorType, ArgFault(AsMap(avail), items[k]).value))
  {
    var isExact := exact;
    if expected.Name? {
      isExact := false;
    }
    var avail := Available(signature, ignore);
    if isExact {
      r := ExactCheck(avail, expected);
    } else {
      r := CheckEachArg(AsMap(avail), Items(expected), errorType);
    }
  }

  // ---------------------------------------------------------------------------
  // get_attribute_name

  /** Index of the first attribute whose value equals `value`, or |attrs|. */
  function FirstWithValue<V(==)>(attrs: seq<(string, V)>, value: V): (k: nat)
    ensures k <= |attrs|
    ensures forall j :: 0 <= j < k ==> attrs[j].1 != value
    ensures k < |attrs| ==> attrs[k].1 == value
  {
    if attrs == [] || attrs[0].1 == value then 0 else 1 + FirstWithValue(attrs[1..], value)
  }

  /** Why get_attribute_name raised: no attribute holds the value (the message
      names the object through its `__name__`), or the object has no
      `__name__` to build that message from. */
  datatype NoSuchAttribute<V> = NoAttributeWithValue(objectName: string, value: V) | NoNameAttribute

  /** The name of the first attribute, in the object's attribute order, whose
      value equals `value`; raises `errorType` exactly when none does.  The
      message reads `objectName`, the object's `__name__` (None for an object
      without one, such as an instance); reading it raises AttributeError. */
  method GetAttributeName<V(==)>(objectName: Option<string>, attrs: seq<(string, V)>, value: V, errorType: ErrorType)
    returns (r: Result<string, Raised<NoSuchAttribute<V>>>)
    ensures r.Failure? <==> forall i :: 0 <= i < |attrs| ==> attrs[i].1 != value
    ensures r.Failure? ==> r.error == match objectName
      case Some(name) => Raised(errorType, NoAttributeWithValue(name, value))
      case None => Raised(AttributeError, NoNameAttribute)
    ensures r.Success? ==> var k := FirstWithValue(attrs, value);
      k < |attrs| && r.value == attrs[k].0
  {
    for i := 0 to |attrs|
      invariant forall j :: 0 <= j < i ==> attrs[j].1 != value
    {
      if attrs[i].1 == value {
        return Success(attrs[i].0);
      }
    }
    if objectName.None? {
      return Failure(Raised(AttributeError, NoNameAttribute));
    }
    return Failure(Raised(errorType, NoAttributeWithValue(objectName.value, value)));
  }

  // ---------------------------------------------------------------------------
  // get_all_keys and get_value over a dict of dicts

  /** A value in a dict of dicts: a nested dict (ordered entries) or anything else. */
  datatype Node = Leaf(text: string) | Dict(entries: seq<Entry>)
  datatype Entry = Entry(key: string, val: Node)

  /** A Python dict never holds a key twice, at any depth. */
  ghost predicate WellFormed(n: Node) {
    n.Dict? ==>
      && (forall i, j :: 0 <= i < j < |n.entries| ==> n.entries[i].key != n.entries[j].key)
      && (forall e :: e in n.entries ==> WellFormed(e.val))
  }

  /** No key, at any depth, contains a dot. */
  ghost predicate NoDotKeys(n: Node) {
    n.Dict? ==> forall e :: e in n.entries ==> '.' !in e.key && NoDotKeys(e.val)
  }

  /** The track_layers argument: False, True, or the path of the enclosing layer. */
  datatype Track = Off | On | Layer(path: string)

  /** Python truthiness of track_layers: an empty path is falsy. */
  predicate Truthy(t: Track) {
    t.On? || (t.Layer? && t.path != "")
  }

  /** The key as get_all_keys records it: prefixed with the layer's path when
      tracking from a non-empty layer. */
  function Label(t: Track, key: string): string {
    if t.Layer? && t.path != "" then t.path + "." + key else key
  }

  /** The track_layers value passed down into a nested dict. */
  function Next(t: Track, recorded: string): Track {
    if Truthy(t) then Layer(recorded) else Off
  }

  /** Every key get_all_keys visits, labelled and in pre-order (duplicates
      kept), starting at entry `i` of `n`. */
  function Paths(n: Node, t: Track, i: nat): seq<string>
    decreases n, if n.Dict? then |n.entries| - i else 0
  {
    if n.Leaf? || i >= |n.entries| then []
    else
      var e := n.entries[i];
      var l := Label(t, e.key);
      [l] + (if e.val.Dict? then Paths(e.val, Next(t, l), 0) else []) + Paths(n, t, i + 1)
  }

  /** Appends, in order, each element of `s` that is not already present. */
  function AppendNew(acc: seq<string>, s: seq<string>): seq<string>
    decreases s
  {
    if s == [] then acc
    else AppendNew(if s[0] in acc then acc else acc + [s[0]], s[1..])
  }

  /** What is already collected stays, in place; afterwards the collection
      holds exactly the old entries and the new ones, and is free of repeats
      when it was before. */
  lemma {:induction false} AppendNewContents(acc: seq<string>, s: seq<string>)
    ensures var r := AppendNew(acc, s);
      && |r| >= |acc| && r[..|acc|] == acc
      && (forall x :: x in r <==> x in acc || x in s)
      && (NoDuplicates(acc) ==> NoDuplicates(r))
    decreases s
  {
    if s != [] {
      var acc' := if s[0] in acc then acc else acc + [s[0]];
      AppendNewContents(acc', s[1..]);
      assert acc'[..|acc|] == acc;
      assert forall x :: x in s <==> x == s[0] || x in s[1..] by {
        assert s == [s[0]] + s[1..];
      }
    }
  }

  predicate NoDuplicates(s: seq<string>) {
    forall i, j :: 0 <= i < j < |s| ==> s[i] != s[j]
  }

  lemma {:induction false} AppendNewConcat(acc: seq<string>, s: seq<string>, t: seq<string>)
    ensures AppendNew(AppendNew(acc, s), t) == AppendNew(acc, s + t)
    decreases s
  {
    if s == [] {
      assert s + t == t;
    } else {
      assert (s + t)[1..] == s[1..] + t;
      AppendNewConcat(if s[0] in acc then acc else acc + [s[0]], s[1..], t);
    }
  }

  lemma AppendNewStep(keys: seq<string>, key: string, child: seq<string>, rest: seq<string>)
    ensures AppendNew(keys, [key] + child + rest)
         == AppendNew(AppendNew(if key in keys then keys else keys + [key], child), rest)
  {
    AppendNewConcat(keys, [key], child + rest);
    AppendNewConcat(AppendNew(keys, [key]), child, rest);
    assert [key] + child + rest == [key] + (child + rest);
  }

  /** get_all_keys: appends to the accumulator every key of the dict of dicts
      that is not yet in it, in pre-order, descending into every nested dict
      (also under a key that was already recorded); with tracking, keys are
      recorded as dotted paths. */
  method GetAllKeys(d: Node, track: Track, acc: seq<string>) returns (keys: seq<string>)
    requires d.Dict?
    ensures keys == AppendNew(acc, Paths(d, track, 0))
    decreases d
  {
    keys := acc;
    var i := 0;
    while i < |d.entries|
      invariant 0 <= i <= |d.entries|
      invariant AppendNew(keys, Paths(d, track, i)) == AppendNew(acc, Paths(d, track, 0))
    {
      var key := d.entries[i].key;
      var val := d.entries[i].val;
      var currentLayer := "";
      if track.On? {
        currentLayer := "";
      } else if Truthy(track) {
        currentLayer := track.path;
      }
      if Truthy(track) && currentLayer != "" {
        key := currentLayer + "." + key;
      }
      assert key == Label(track, d.entries[i].key);
      ghost var rest := Paths(d, track, i + 1);
      ghost var child := if val.Dict? then Paths(val, Next(track, key), 0) else [];
      AppendNewStep(keys, key, child, rest);
      if key !in keys {
        keys := keys + [key];
      }
      if val.Dict? {
        var next := if Truthy(track) then Layer(key) else Off;
        keys := GetAllKeys(val, next, keys);
      }
      i := i + 1;
    }
  }

  /** Every key at any depth, as a set: the reference for untracked collection. */
  ghost function AllKeys(n: Node, i: nat): set<string>
    decreases n, if n.Dict? then |n.entries| - i else 0
  {
    if n.Leaf? || i >= |n.entries| then {}
    else {n.entries[i].key} + AllKeys(n.entries[i].val, 0) + AllKeys(n, i + 1)
  }

  lemma {:induction false} UntrackedPathsAreKeys(n: Node, i: nat)
    ensures forall p :: p in Paths(n, Off, i) <==> p in AllKeys(n, i)
    decreases n, if n.Dict? then |n.entries| - i else 0
  {
    if n.Dict? && i < |n.entries| {
      UntrackedPathsAreKeys(n.entries[i].val, 0);
      UntrackedPathsAreKeys(n, i + 1);
    }
  }

  /** Without tracking, get_all_keys returns every key found at any depth
      exactly once, and nothing else. */
  lemma UntrackedKeys(d: Node)
    requires d.Dict?
    ensures var keys := AppendNew([], Paths(d, Off, 0));
      && NoDuplicates(keys)
      && forall k :: k in keys <==> k in AllKeys(d, 0)
  {
    UntrackedPathsAreKeys(d, 0);
    AppendNewContents([], Paths(d, Off, 0));
  }

  /** `s.split('.')`: the text between dots, empty pieces included. */
  function SplitDots(s: string): (r: seq<string>)
    ensures |r| >= 1
    ensures forall i :: 0 <= i < |r| ==> '.' !in r[i]
  {
    if s == [] then [""]
    else if s[0] == '.' then [""] + SplitDots(s[1..])
    else var t := SplitDots(s[1..]); [[s[0]] + t[0]] + t[1..]
  }

  /** `'.'.join(ks)`. */
  function JoinDots(ks: seq<string>): string
    requires |ks| >= 1
  {
    if |ks| == 1 then ks[0] else ks[0] + "." + JoinDots(ks[1..])
  }

  /** Splitting undoes joining when no piece contains a dot. */
  lemma {:induction false} SplitJoin(ks: seq<string>)
    requires |ks| >= 1
    requires forall i :: 0 <= i < |ks| ==> '.' !in ks[i]
    ensures SplitDots(JoinDots(ks)) == ks
  {
    if |ks| == 1 {
      SplitDotFree(ks[0]);
    } else {
      SplitJoin(ks[1..]);
      SplitPrefix(ks[0], JoinDots(ks[1..]));
      assert ks == [ks[0]] + ks[1..];
    }
  }

  lemma {:induction false} SplitDotFree(a: string)
    requires '.' !in a
    ensures SplitDots(a) == [a]
  {
    if a != [] {
      assert a[0] in a;
      SplitDotFree(a[1..]);
      assert [a[0]] + a[1..] == a;
    }
  }

  lemma {:induction false} SplitPrefix(a: string, b: string)
    requires '.' !in a
    ensures SplitDots(a + "." + b) == [a] + SplitDots(b)
  {
    if a == [] {
      assert a + "." + b == ['.'] + b;
      assert (['.'] + b)[1..] == b;
    } else {
      assert (a + "." + b)[1..] == a[1..] + "." + b;
      SplitPrefix(a[1..], b);
      assert [a[0]] + a[1..] == a;
    }
  }

  /** Joining undoes splitting, for every string. */
  lemma {:induction false} JoinSplit(s: string)
    ensures JoinDots(SplitDots(s)) == s
  {
    if s != [] {
      JoinSplit(s[1..]);
      var t := SplitDots(s[1..]);
      if s[0] == '.' {
        assert ([""] + t)[1..] == t;
      } else if |t| > 1 {
        assert ([[s[0]] + t[0]] + t[1..])[1..] == t[1..];
        assert [s[0]] + (t[0] + "." + JoinDots(t[1..])) == s;
      } else {
        assert [s[0]] + t[0] == s;
      }
    }
  }

  /** Why a lookup in a dict of dicts fails: a missing key (KeyError), or a
      value that is not a dict being subscripted (TypeError). */
  datatype LookupError = KeyMissing(key: string) | NotSubscriptable(key: string)

  /** Index of the entry with key `k`, or |es|. */
  function FindKey(es: seq<Entry>, k: string): (i: nat)
    ensures i <= |es|
    ensures i < |es| ==> es[i].key == k
    ensures forall j :: 0 <= j < i ==> es[j].key != k
  {
    if es == [] || es[0].key == k then 0 else 1 + FindKey(es[1..], k)
  }

  /** Follows the keys one by one from `n`. */
  function Lookup(n: Node, ks: seq<string>): Result<Node, LookupError>
    decreases |ks|
  {
    if ks == [] then Success(n)
    else if n.Leaf? then Failure(NotSubscriptable(ks[0]))
    else
      var i := FindKey(n.entries, ks[0]);
      if i == |n.entries| then Failure(KeyMissing(ks[0]))
      else Lookup(n.entries[i].val, ks[1..])
  }

  lemma {:induction false} LookupAppend(n: Node, ks: seq<string>, k: string)
    requires Lookup(n, ks).Success?
    ensures Lookup(n, ks + [k]) == Lookup(Lookup(n, ks).value, [k])
    decreases |ks|
  {
    if ks == [] {
      assert ks + [k] == [k];
    } else {
      assert (ks + [k])[1..] == ks[1..] + [k];
      var i := FindKey(n.entries, ks[0]);
      LookupAppend(n.entries[i].val, ks[1..], k);
    }
  }

  /** A lookup fails with KeyError at the first key that the dict reached so
      far does not hold, and the rest of the path is never looked at. */
  lemma {:induction false} LookupStopsAtMissingKey(n: Node, ks: seq<string>, j: nat, es: seq<Entry>)
    requires j < |ks|
    requires Lookup(n, ks[..j]) == Success(Dict(es))
    requires forall e :: e in es ==> e.key != ks[j]
    ensures Lookup(n, ks) == Failure(KeyMissing(ks[j]))
    decreases j
  {
    if j == 0 {
      assert ks[..0] == [];
    } else {
      assert ks[..j][1..] == ks[1..][..j - 1];
      var i := FindKey(n.entries, ks[0]);
      LookupStopsAtMissingKey(n.entries[i].val, ks[1..], j - 1, es);
    }
  }

  /** get_value: splits the dotted key and follows it from the root, raising
      at the first missing key or non-dict value. */
  method GetValue(d: Node, completeKey: string) returns (r: Result<Node, LookupError>)
    ensures r == Lookup(d, SplitDots(completeKey))
  {
    var keys := SplitDots(completeKey);
    var cur := d;
    for i := 0 to |keys|
      invariant Lookup(d, keys) == Lookup(cur, keys[i..])
    {
      assert keys[i..][1..] == keys[i + 1..];
      if cur.Leaf? {
        return Failure(NotSubscriptable(keys[i]));
      }
      var j := FindKey(cur.entries, keys[i]);
      if j == |cur.entries| {
        return Failure(KeyMissing(keys[i]));
      }
      cur := cur.entries[j].val;
    }
    assert keys[|keys|..] == [];
    return Success(cur);
  }

  /** Path tracking as evidently intended: the root has no prefix, and every
      nested key is prefixed with the path of its parent, whatever that path is. */
  function TrackedPaths(n: Node, prefix: Option<string>, i: nat): seq<string>
    decreases n, if n.Dict? then |n.entries| - i else 0
  {
    if n.Leaf? || i >= |n.entries| then []
    else
      var e := n.entries[i];
      var l := if prefix.Some? then prefix.value + "." + e.key else e.key;
      [l] + (if e.val.Dict? then TrackedPaths(e.val, Some(l), 0) else []) + TrackedPaths(n, prefix, i + 1)
  }

  /** Every path of the intended tracking resolves: a node reached by the keys
      `ks` from the root yields paths that lead back from the root. */
  lemma {:induction false} TrackedPathsResolveFrom(root: Node, ks: seq<string>, n: Node, i: nat, p: string)
    requires WellFormed(n) && NoDotKeys(n) && n.Dict?
    requires forall j :: 0 <= j < |ks| ==> '.' !in ks[j]
    requires Lookup(root, ks) == Success(n)
    requires p in TrackedPaths(n, if ks == [] then None else Some(JoinDots(ks)), i)
    ensures Lookup(root, SplitDots(p)).Success?
    decreases n, |n.entries| - i
  {
    var prefix := if ks == [] then None else Some(JoinDots(ks));
    var e := n.entries[i];
    var l := if prefix.Some? then prefix.value + "." + e.key else e.key;
    assert e in n.entries;
    var ks' := ks + [e.key];
    assert JoinDots(ks') == l by {
      if ks != [] { JoinAppend(ks, e.key); } else { assert ks' == [e.key]; }
    }
    SplitJoin(ks');
    LookupAppend(root, ks, e.key);
    assert FindKey(n.entries, e.key) == i;
    assert [e.key][1..] == [];
    assert Lookup(root, ks') == Success(e.val);
    var child := if e.val.Dict? then TrackedPaths(e.val, Some(l), 0) else [];
    if p == l {
    } else if p in child {
      TrackedPathsResolveFrom(root, ks', e.val, 0, p);
    } else {
      TrackedPathsResolveFrom(root, ks, n, i + 1, p);
    }
  }

  lemma {:induction false} JoinAppend(ks: seq<string>, k: string)
    requires |ks| >= 1
    ensures JoinDots(ks + [k]) == JoinDots(ks) + "." + k
  {
    if |ks| == 1 {
      assert ks + [k] == [ks[0], k];
    } else {
      assert (ks + [k])[1..] == ks[1..] + [k];
      JoinAppend(ks[1..], k);
    }
  }

  /** With the intended tracking, every recorded path leads to its value
      through get_value, provided no key contains a dot. */
  lemma IntendedPathsResolve(d: Node, p: string)
    requires d.Dict? && WellFormed(d) && NoDotKeys(d)
    requires p in AppendNew([], TrackedPaths(d, None, 0))
    ensures Lookup(d, SplitDots(p)).Success?
  {
    AppendNewContents([], TrackedPaths(d, None, 0));
    TrackedPathsResolveFrom(d, [], d, 0, p);
  }

  /** Below a non-empty layer path, get_all_keys tracks exactly as intended. */
  lemma {:induction false} LayerTracksAsIntended(n: Node, path: string, i: nat)
    requires path != ""
    ensures Paths(n, Layer(path), i) == TrackedPaths(n, Some(path), i)
    decreases n, if n.Dict? then |n.entries| - i else 0
  {
    if n.Dict? && i < |n.entries| {
      var e := n.entries[i];
      LayerTracksAsIntended(e.val, path + "." + e.key, 0);
      LayerTracksAsIntended(n, path, i + 1);
    }
  }

  /** From the root, get_all_keys tracks as intended when no top-level key is
      empty. */
  lemma {:induction false} RootTracksAsIntended(n: Node, i: nat)
    requires n.Dict? ==> forall e :: e in n.entries ==> e.key != ""
    ensures Paths(n, On, i) == TrackedPaths(n, None, i)
    decreases if n.Dict? then |n.entries| - i else 0
  {
    if n.Dict? && i < |n.entries| {
      var e := n.entries[i];
      assert e in n.entries;
      LayerTracksAsIntended(e.val, e.key, 0);
      RootTracksAsIntended(n, i + 1);
    }
  }

  /** get_all_keys with track_layers=True returns dotted paths from the root,
      top-level keys unprefixed, and get_value finds every one of them when no
      key contains a dot and no top-level key is empty. */
  lemma TrackedKeysResolve(d: Node, p: string)
    requires d.Dict? && WellFormed(d) && NoDotKeys(d)
    requires forall e :: e in d.entries ==> e.key != ""
    requires p in AppendNew([], Paths(d, On, 0))
    ensures Lookup(d, SplitDots(p)).Success?
  {
    AppendNewContents([], Paths(d, On, 0));
    RootTracksAsIntended(d, 0);
    TrackedPathsResolveFrom(d, [], d, 0, p);
  }

  lemma AppendNewDistinct(a: string, b: string)
    requires a != b
    ensures AppendNew([], [a, b]) == [a, b]
  {
    assert [a, b][1..] == [b];
    assert [b][1..] == [];
    assert [] + [a] == [a];
    assert [a] + [b] == [a, b];
    assert AppendNew([a, b], []) == [a, b];
    assert AppendNew([a], [b]) == AppendNew([a, b], []);
    assert AppendNew([], [a, b]) == AppendNew([a], [b]);
  }

  /** A top-level empty key makes the layer path falsy, so the keys below it
      are recorded without a prefix and get_value cannot find them; the
      intended tracking records ".x", which get_value resolves. */
  lemma EmptyTopKeyLosesTracking()
    ensures var d := Dict([Entry("", Dict([Entry("x", Leaf("1"))]))]);
      && AppendNew([], Paths(d, On, 0)) == ["", "x"]
      && Lookup(d, SplitDots("x")) == Failure(KeyMissing("x"))
      && AppendNew([], TrackedPaths(d, None, 0)) == ["", ".x"]
      && Lookup(d, SplitDots(".x")) == Success(Leaf("1"))
  {
    var d := Dict([Entry("", Dict([Entry("x", Leaf("1"))]))]);
    var inner := Dict([Entry("x", Leaf("1"))]);
    assert Paths(inner, Layer(""), 1) == [];
    assert Paths(inner, Layer(""), 0) == ["x"];
    assert Paths(d, On, 1) == [];
    assert Paths(d, On, 0) == ["", "x"];
    assert TrackedPaths(inner, Some(""), 1) == [];
    assert "" + "." + "x" == ".x";
    assert TrackedPaths(inner, Some(""), 0) == [".x"];
    assert TrackedPaths(d, None, 1) == [];
    assert TrackedPaths(d, None, 0) == ["", ".x"];
    AppendNewDistinct("", "x");
    AppendNewDistinct("", ".x");
    SplitDotFree("x");
    assert ".x"[1..] == "x";
    assert SplitDots(".x") == ["", "x"];
  }
}
