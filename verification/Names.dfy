/** The names under which tensors are registered, and the keys of shared memory segments. */
module Names {
  import opened Options

  datatype Direction = Input | Output

  /** One registration: the counter it drew, which of the two counters, and the tensor's name. */
  datatype Registration = Registration(counter: nat, direction: Direction, name: string)

  // ---- Decimal numbers ----

  predicate IsDigit(c: char) { '0' <= c <= '9' }

  function DigitOf(d: nat): (c: char)
    requires d < 10
    ensures IsDigit(c) && DigitValue(c) == d
  {
    '0' + d as char
  }

  function DigitValue(c: char): nat
    requires IsDigit(c)
  {
    c as int - '0' as int
  }

  /** std::to_string of a counter. */
  function Decimal(n: nat): (s: string)
    ensures s != [] && forall i :: 0 <= i < |s| ==> IsDigit(s[i])
  {
    if n < 10 then [DigitOf(n)] else Decimal(n / 10) + [DigitOf(n % 10)]
  }

  function ValueOf(s: string): nat
    requires forall i :: 0 <= i < |s| ==> IsDigit(s[i])
  {
    if s == [] then 0 else 10 * ValueOf(s[..|s| - 1]) + DigitValue(s[|s| - 1])
  }

  lemma {:induction false} DecimalValue(n: nat)
    ensures ValueOf(Decimal(n)) == n
  {
    if n >= 10 {
      var front := Decimal(n / 10);
      DecimalValue(n / 10);
      assert Decimal(n)[..|Decimal(n)| - 1] == front;
    }
  }

  // ---- Registered names ----

  function Label(d: Direction): string {
    match d
    case Input => "input_"
    case Output => "output_"
  }

  /** A registered name: counter, label and tensor name, one behind the other. */
  function Registered(r: Registration): string {
    Decimal(r.counter) + Label(r.direction) + r.name
  }

  /** How many digits a string starts with. */
  function Leading(s: string): (k: nat)
    ensures k <= |s| && (forall i :: 0 <= i < k ==> IsDigit(s[i])) && (k < |s| ==> !IsDigit(s[k]))
  {
    if s == [] || !IsDigit(s[0]) then 0 else 1 + Leading(s[1..])
  }

  predicate StartsWith(s: string, p: string) {
    |p| <= |s| && s[..|p|] == p
  }

  /** Reads a registered name back. */
  function Parse(s: string): Option<Registration> {
    var k := Leading(s);
    var rest := s[k..];
    if k == 0 then None
    else if StartsWith(rest, Label(Input)) then Some(Registration(ValueOf(s[..k]), Input, rest[|Label(Input)|..]))
    else if StartsWith(rest, Label(Output)) then Some(Registration(ValueOf(s[..k]), Output, rest[|Label(Output)|..]))
    else None
  }

  lemma {:induction false} LeadingIs(s: string, k: nat)
    requires k <= |s| && (forall i :: 0 <= i < k ==> IsDigit(s[i])) && (k < |s| ==> !IsDigit(s[k]))
    ensures Leading(s) == k
  {
    if k > 0 {
      LeadingIs(s[1..], k - 1);
    }
  }

  /** Every registered name reads back as the registration it came from, whatever characters the tensor's name
      is made of. */
  lemma ParseRegistered(r: Registration)
    ensures Parse(Registered(r)) == Some(r)
  {
    hide Decimal;
    var d, l := Decimal(r.counter), Label(r.direction);
    var s := Registered(r);
    assert s[|d|] == l[0];
    LeadingIs(s, |d|);
    assert s[..|d|] == d;
    assert s[|d|..] == l + r.name;
    assert (l + r.name)[|l|..] == r.name;
    DecimalValue(r.counter);
    assert (l + r.name)[..|l|] == l;
    assert (l + r.name)[0] == l[0];
  }

  /** Registered names are equal only for equal registrations. */
  lemma RegisteredInjective(a: Registration, b: Registration)
    ensures Registered(a) == Registered(b) <==> a == b
  {
    ParseRegistered(a);
    ParseRegistered(b);
  }

  ghost predicate Distinct<T>(s: seq<T>) {
    forall i, j :: 0 <= i < j < |s| ==> s[i] != s[j]
  }

  function NamesOf(log: seq<Registration>): (s: seq<string>)
    ensures |s| == |log| && forall i :: 0 <= i < |s| ==> s[i] == Registered(log[i])
  {
    seq(|log|, i requires 0 <= i < |log| => Registered(log[i]))
  }

  lemma NamesDistinct(log: seq<Registration>)
    requires Distinct(log)
    ensures Distinct(NamesOf(log))
  {
    forall i, j | 0 <= i < j < |log|
      ensures Registered(log[i]) != Registered(log[j])
    {
      RegisteredInjective(log[i], log[j]);
    }
  }

  /** Registered names and keys as they are written, the counter in decimal digits. */
  lemma NamesAsWritten()
    ensures Registered(Registration(120, Input, "x")) == "120input_x"
    ensures Registered(Registration(7, Output, "y")) == "7output_y"
    ensures Key("x", 120) == "/gr_x120"
  {
    assert Decimal(1) == "1" && Decimal(12) == "12" && Decimal(120) == "120" && Decimal(7) == "7";
  }

  // ---- Keys of shared memory segments ----

  /** The key of segment `n` for a tensor. */
  function Key(name: string, n: nat): string {
    "/gr_" + name + Decimal(n)
  }

  /** Some other name and number have the same key. */
  ghost predicate Ambiguous(name: string, n: nat) {
    exists name': string, n': nat :: (name', n') != (name, n) && Key(name', n') == Key(name, n)
  }

  /** The name ends in digits, not all of them zero. */
  predicate EndsInNumber(name: string) {
    name != [] && IsDigit(name[|name| - 1]) && (name[|name| - 1] != '0' || EndsInNumber(name[..|name| - 1]))
  }

  lemma KeysEqual(name: string, n: nat, name': string, n': nat)
    ensures Key(name, n) == Key(name', n') <==> name + Decimal(n) == name' + Decimal(n')
  {
    hide Decimal;
    var a, b := name + Decimal(n), name' + Decimal(n');
    assert Key(name, n) == "/gr_" + a && Key(name', n') == "/gr_" + b;
    assert ("/gr_" + a)[4..] == a && ("/gr_" + b)[4..] == b;
  }

  /** The number does not keep the keys of shared memory segments apart: the key for a name and a number is also
      that of another pair exactly when the number has several digits or the name ends in a number. */
  lemma KeyAmbiguousExactly(name: string, n: nat)
    ensures Ambiguous(name, n) <==> n >= 10 || EndsInNumber(name)
  {
    if n >= 10 {
      var name' := name + Decimal(n / 10);
      assert name + Decimal(n) == name' + Decimal(n % 10);
      KeysEqual(name, n, name', n % 10);
      assert (name', n % 10) != (name, n);
    } else if EndsInNumber(name) {
      var front, m := SplitNumber(name);
      assert Decimal(10 * m + n) == Decimal(m) + [DigitOf(n)];
      assert front + Decimal(10 * m + n) == name + Decimal(n);
      KeysEqual(front, 10 * m + n, name, n);
    } else {
      forall name': string, n': nat | Key(name', n') == Key(name, n)
        ensures (name', n') == (name, n)
      {
        KeysEqual(name, n, name', n');
        OneKey(name, n, name', n');
      }
    }
  }

  /** A name that ends in a number, split there. */
  lemma {:induction false} SplitNumber(name: string) returns (front: string, m: nat)
    requires EndsInNumber(name)
    ensures m > 0 && name == front + Decimal(m)
  {
    var c := name[|name| - 1];
    var d := DigitValue(c);
    if EndsInNumber(name[..|name| - 1]) {
      var k: nat;
      front, k := SplitNumber(name[..|name| - 1]);
      m := 10 * k + d;
      assert Decimal(m) == Decimal(k) + [c];
    } else {
      front, m := name[..|name| - 1], d;
    }
  }

  lemma OneKey(name: string, n: nat, name': string, n': nat)
    requires n < 10 && !EndsInNumber(name) && name + Decimal(n) == name' + Decimal(n')
    ensures name == name' && n == n'
  {
    if n' < 10 {
      assert (name + Decimal(n))[..|name|] == name;
      assert (name' + Decimal(n'))[..|name'|] == name';
      assert (name + Decimal(n))[|name|] == (name' + Decimal(n'))[|name'|];
    } else {
      assert name == name' + Decimal(n' / 10) by {
        assert (name + Decimal(n))[..|name|] == name;
        assert (name' + Decimal(n'))[..|name|] == name' + Decimal(n' / 10);
      }
      NumberEnds(name', n' / 10);
      assert false;
    }
  }

  lemma {:induction false} NumberEnds(front: string, m: nat)
    requires m > 0
    ensures EndsInNumber(front + Decimal(m))
  {
    var s := front + Decimal(m);
    if m >= 10 {
      NumberEnds(front, m / 10);
      assert s[..|s| - 1] == front + Decimal(m / 10);
    }
  }
}
