/**
 * The strings the ActiveX-aware factories hand to `eval`, because an ActiveX object offers
 * neither `obj[name]` nor `Function.prototype.apply`
 * (src/PropMethodFactory/ActiveXAwarePropMethodFactory.js, src/xhrWrapper.js:9-25).
 * `eval` itself is not modelled: these functions say which code it is given.
 */
module CallStrings {

  /** The character for a decimal digit. */
  function Digit(d: nat): char
    requires d < 10
  {
    "0123456789"[d]
  }

  predicate AllDigits(s: string) {
    forall i :: 0 <= i < |s| ==> '0' <= s[i] <= '9'
  }

  /** `"" + n` for a non-negative integer: its decimal digits, without leading zeros. */
  function DecimalString(n: nat): (s: string)
    ensures |s| >= 1 && AllDigits(s)
    ensures |s| > 1 ==> s[0] != '0'
  {
    if n < 10 then [Digit(n)] else DecimalString(n / 10) + [Digit(n % 10)]
  }

  /** Reads back a string of decimal digits. */
  function ParseDecimal(s: string): nat
    requires AllDigits(s)
  {
    if s == [] then 0 else ParseDecimal(s[..|s| - 1]) * 10 + (s[|s| - 1] as int - '0' as int)
  }

  /** Reading back the digits of `n` gives `n`. */
  lemma {:induction false} ParseDecimalInverse(n: nat)
    ensures ParseDecimal(DecimalString(n)) == n
  {
    var s := DecimalString(n);
    if n >= 10 {
      ParseDecimalInverse(n / 10);
      assert s[..|s| - 1] == DecimalString(n / 10);
    }
  }

  /** The reference to the `i`-th argument inside a call string: `"args[" + i + "]"`. */
  function ArgRef(i: nat): string {
    "args[" + DecimalString(i) + "]"
  }

  /** Distinct argument positions are referenced by distinct strings. */
  lemma ArgRefInjective(i: nat, j: nat)
    ensures ArgRef(i) == ArgRef(j) ==> i == j
  {
    if ArgRef(i) == ArgRef(j) {
      var a, b := DecimalString(i), DecimalString(j);
      assert ArgRef(i)[5..|ArgRef(i)| - 1] == a;
      assert ArgRef(j)[5..|ArgRef(j)| - 1] == b;
      ParseDecimalInverse(i);
      ParseDecimalInverse(j);
    }
  }

  /** `args[0]`, ..., `args[n-1]`, in ascending order. */
  function ArgRefs(n: nat): (refs: seq<string>)
    ensures |refs| == n && forall i :: 0 <= i < n ==> refs[i] == ArgRef(i)
  {
    seq(n, i requires 0 <= i => ArgRef(i))
  }

  /** The parts, separated by `", "`. */
  function Join(parts: seq<string>): string {
    if |parts| == 0 then ""
    else if |parts| == 1 then parts[0]
    else parts[0] + ", " + Join(parts[1..])
  }

  /** Appending one more part to a non-empty list appends `", "` and the part. */
  lemma {:induction false} JoinSnoc(parts: seq<string>, p: string)
    requires |parts| > 0
    ensures Join(parts + [p]) == Join(parts) + ", " + p
  {
    if |parts| == 1 {
      assert parts + [p] == [parts[0], p];
      assert (parts + [p])[1..] == [p];
    } else {
      assert (parts + [p])[1..] == parts[1..] + [p];
      JoinSnoc(parts[1..], p);
    }
  }

  /** The code evaluated to call method `name` of `receiver` with `argc` arguments. */
  function CallString(receiver: string, name: string, argc: nat): string {
    receiver + "." + name + "(" + Join(ArgRefs(argc)) + ");"
  }

  /**
   * The loop of ActiveXAwarePropMethodFactory.invokeMethod and of the draft's
   * `invokeActiveXMethod`: `receiver.name(`, then `args[0]`, then `, args[i]` for each further
   * argument, then `);`.
   */
  method BuildCallString(receiver: string, name: string, argc: nat) returns (s: string)
    ensures s == CallString(receiver, name, argc)
  {
    var prefix := receiver + "." + name + "(";
    s := prefix;
    if argc > 0 {
      s := s + "args[0]";
      assert ArgRefs(1) == [ArgRef(0)];
    }
    var i := 1;
    while i < argc
      invariant 1 <= i && (argc > 0 ==> i <= argc)
      invariant s == prefix + Join(ArgRefs(if argc == 0 then 0 else i))
    {
      assert ArgRefs(i + 1) == ArgRefs(i) + [ArgRef(i)];
      JoinSnoc(ArgRefs(i), ArgRef(i));
      s := s + ", args[" + DecimalString(i) + "]";
      i := i + 1;
    }
    s := s + ");";
  }

  /** With no argument the call is `receiver.name();`; with some, it starts with `args[0]`. */
  lemma CallStringShape(receiver: string, name: string, argc: nat)
    ensures argc == 0 ==> CallString(receiver, name, argc) == receiver + "." + name + "();"
    ensures argc > 0 ==>
      CallString(receiver, name, argc) == receiver + "." + name + "(args[0]" + Join(ArgRefs(argc))[7..] + ");"
    ensures argc > 1 ==>
      Join(ArgRefs(argc)) == Join(ArgRefs(argc - 1)) + ", args[" + DecimalString(argc - 1) + "]"
  {
    if argc == 0 {
      CallStringNoArgs(receiver, name);
    } else {
      CallStringWithArgs(receiver, name, argc);
    }
    if argc > 1 {
      JoinArgRefsSnoc(argc);
    }
  }

  lemma CallStringNoArgs(receiver: string, name: string)
    ensures CallString(receiver, name, 0) == receiver + "." + name + "();"
  {
    assert Join(ArgRefs(0)) == "";
    var p := receiver + "." + name;
    assert CallString(receiver, name, 0) == p + ("(" + "" + ");");
    assert "(" + "" + ");" == "();";
  }

  lemma CallStringWithArgs(receiver: string, name: string, argc: nat)
    requires argc > 0
    ensures CallString(receiver, name, argc) == receiver + "." + name + "(args[0]" + Join(ArgRefs(argc))[7..] + ");"
  {
    ArgRefsFirst(argc);
    var j := Join(ArgRefs(argc));
    assert j == j[..7] + j[7..];
    assert "(" + j == "(args[0]" + j[7..];
    var p := receiver + "." + name;
    assert CallString(receiver, name, argc) == p + ("(" + j) + ");";
  }

  lemma JoinArgRefsSnoc(argc: nat)
    requires argc > 1
    ensures Join(ArgRefs(argc)) == Join(ArgRefs(argc - 1)) + ", args[" + DecimalString(argc - 1) + "]"
  {
    assert ArgRefs(argc) == ArgRefs(argc - 1) + [ArgRef(argc - 1)];
    JoinSnoc(ArgRefs(argc - 1), ArgRef(argc - 1));
  }

  /** The joined references of a non-empty argument list start with `args[0]`. */
  lemma {:induction false} ArgRefsFirst(argc: nat)
    requires argc > 0
    ensures |Join(ArgRefs(argc))| >= 7 && Join(ArgRefs(argc))[..7] == "args[0]"
  {
    assert ArgRef(0) == "args[0]";
    if argc > 1 {
      ArgRefsFirst(argc - 1);
      assert ArgRefs(argc) == ArgRefs(argc - 1) + [ArgRef(argc - 1)];
      JoinSnoc(ArgRefs(argc - 1), ArgRef(argc - 1));
    }
  }

  /** `receiver.name;`: the code evaluated to read a property. */
  function GetPropertyString(receiver: string, name: string): string {
    receiver + "." + name + ";"
  }

  /** `receiver.name = variable;`: the code evaluated to write a property from a local variable. */
  function SetPropertyString(receiver: string, name: string, variable: string): string {
    receiver + "." + name + " = " + variable + ";"
  }
}
