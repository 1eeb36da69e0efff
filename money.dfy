/**
 * Display of money amounts, held as integer cents. `NumberFormat` is PHP's
 * `number_format($x, 2, ',', '.')` (thousands separated by '.', two decimals
 * after ','), `FormatarValor` is the sign-aware formatter of the cash-flow
 * widget and `FormatarReais` the plain "R$ " formatter of the other widgets.
 * `ReadValor` reads an amount back from its display; the round-trip lemmas
 * show that no display loses or alters the amount.
 */
module Money {
  import opened Text

  function Abs(x: int): nat {
    if x < 0 then -x else x
  }

  function Pow10(k: nat): nat {
    if k == 0 then 1 else 10 * Pow10(k - 1)
  }

  /** Characters a formatted number may contain. */
  predicate NumberChars(s: string) {
    forall i | 0 <= i < |s| :: IsDigit(s[i]) || s[i] == '.' || s[i] == ','
  }

  /** The digits of s, in order, with every other character dropped. */
  function OnlyDigits(s: string): (r: string)
    ensures AllDigits(r)
  {
    if s == [] then []
    else OnlyDigits(s[..|s| - 1]) + (if IsDigit(s[|s| - 1]) then [s[|s| - 1]] else [])
  }

  lemma {:induction false} OnlyDigitsConcat(a: string, b: string)
    ensures OnlyDigits(a + b) == OnlyDigits(a) + OnlyDigits(b)
    decreases |b|
  {
    if b != [] {
      var b', c := b[..|b| - 1], b[|b| - 1];
      var tail := if IsDigit(c) then [c] else [];
      assert (a + b)[..|a + b| - 1] == a + b';
      assert (a + b)[|a + b| - 1] == c;
      OnlyDigitsConcat(a, b');
      calc {
        OnlyDigits(a + b);
        OnlyDigits(a + b') + tail;
        OnlyDigits(a) + OnlyDigits(b') + tail;
        OnlyDigits(a) + (OnlyDigits(b') + tail);
        OnlyDigits(a) + OnlyDigits(b);
      }
    } else {
      assert a + b == a;
    }
  }

  lemma {:induction false} OnlyDigitsOfDigits(s: string)
    requires AllDigits(s)
    ensures OnlyDigits(s) == s
  {
    if s != [] {
      OnlyDigitsOfDigits(s[..|s| - 1]);
    }
  }

  lemma AllDigitsConcat(a: string, b: string)
    requires AllDigits(a) && AllDigits(b)
    ensures AllDigits(a + b)
  {
  }

  lemma ShiftDecimal(x: int, p: int, y: int, d: int)
    ensures (x * p + y) * 10 + d == x * (p * 10) + (y * 10 + d)
  {
  }

  lemma {:induction false} DigitsValueConcat(a: string, b: string)
    requires AllDigits(a) && AllDigits(b)
    ensures AllDigits(a + b)
    ensures DigitsValue(a + b) == DigitsValue(a) * Pow10(|b|) + DigitsValue(b)
    decreases |b|
  {
    AllDigitsConcat(a, b);
    if b == [] {
      assert a + b == a;
    } else {
      var b' := b[..|b| - 1];
      var d := DigitValue(b[|b| - 1]);
      assert (a + b)[..|a + b| - 1] == a + b';
      DigitsValueConcat(a, b');
      ShiftDecimal(DigitsValue(a), Pow10(|b'|), DigitsValue(b'), d);
    }
  }

  /** Three-digit, zero-padded group. */
  function ThreeDigits(n: nat): (s: string)
    requires n < 1000
    ensures |s| == 3 && AllDigits(s) && DigitsValue(s) == n
  {
    var s := [DigitChar(n / 100), DigitChar(n / 10 % 10), DigitChar(n % 10)];
    assert s[..2] == [DigitChar(n / 100), DigitChar(n / 10 % 10)];
    assert s[..2][..1] == [DigitChar(n / 100)];
    assert s[..2][..1][..0] == [];
    assert DigitsValue(s[..2][..1]) == n / 100;
    assert DigitsValue(s[..2]) == n / 100 * 10 + n / 10 % 10 == n / 10;
    s
  }

  /** The integer part of `number_format`: digits grouped by three, groups joined by '.'. */
  function GroupThousands(n: nat): (s: string)
    ensures 1 <= |s| && IsDigit(s[0])
  {
    if n < 1000 then NatToString(n)
    else GroupThousands(n / 1000) + "." + ThreeDigits(n % 1000)
  }

  /** Joining with a separator that is not a digit keeps exactly the digits of both sides. */
  lemma {:induction false} OnlyDigitsJoin(g: string, sep: char, t: string)
    requires !IsDigit(sep) && AllDigits(t)
    ensures OnlyDigits(g + [sep] + t) == OnlyDigits(g) + t
  {
    OnlyDigitsConcat(g, [sep]);
    OnlyDigitsConcat(g + [sep], t);
    OnlyDigitsOfDigits(t);
    assert [sep][..0] == [];
    assert OnlyDigits([sep]) == OnlyDigits([]) + [];
  }

  /** Grouping only inserts '.' separators: the digits still denote n. */
  lemma {:induction false} GroupThousandsDigits(n: nat)
    ensures DigitsValue(OnlyDigits(GroupThousands(n))) == n
  {
    if n < 1000 {
      OnlyDigitsOfDigits(NatToString(n));
    } else {
      var q, r := n / 1000, n % 1000;
      var g, t := GroupThousands(q), ThreeDigits(r);
      assert GroupThousands(n) == g + "." + t;
      GroupThousandsDigits(q);
      OnlyDigitsJoin(g, '.', t);
      DigitsValueConcat(OnlyDigits(g), t);
      assert Pow10(3) == 1000;
      assert DigitsValue(OnlyDigits(g) + t) == q * 1000 + r;
    }
  }

  lemma {:induction false} GroupThousandsChars(n: nat)
    ensures NumberChars(GroupThousands(n)) && ',' !in GroupThousands(n)
  {
    if n >= 1000 {
      GroupThousandsChars(n / 1000);
      var g, t := GroupThousands(n / 1000), ThreeDigits(n % 1000);
      var s := g + "." + t;
      forall i | 0 <= i < |s| ensures IsDigit(s[i]) || s[i] == '.' {
        if i < |g| { assert s[i] == g[i]; } else if i > |g| { assert s[i] == t[i - |g| - 1]; }
      }
    }
  }

  /** `number_format($cents / 100, 2, ',', '.')`: a '-' for negatives, then the grouped units, ',' and two decimals. */
  function NumberFormat(cents: int): string {
    (if cents < 0 then "-" else "") + GroupThousands(Abs(cents) / 100) + "," + TwoDigits(Abs(cents) % 100)
  }

  /** The cash-flow widget's formatter: sign, then "R$ " when asked for, then the magnitude. */
  function FormatarValor(valor: int, incluirSimbolo: bool): string {
    (if valor < 0 then "-" else "") + (if incluirSimbolo then "R$ " else "") + NumberFormat(Abs(valor))
  }

  /** The other widgets' formatter: "R$ " followed by `number_format` of the signed amount. */
  function FormatarReais(valor: int): string {
    "R$ " + NumberFormat(valor)
  }

  /** Reads an amount back from a display: negative when a '-' occurs, magnitude from the digits. */
  function ReadValor(s: string): int {
    var magnitude: int := DigitsValue(OnlyDigits(s));
    if '-' in s then -magnitude else magnitude
  }

  lemma NumberFormatDigits(n: nat)
    ensures OnlyDigits(NumberFormat(n)) == OnlyDigits(GroupThousands(n / 100)) + TwoDigits(n % 100)
    ensures DigitsValue(OnlyDigits(NumberFormat(n))) == n
    ensures NumberChars(NumberFormat(n)) && '-' !in NumberFormat(n)
  {
    var q, r := n / 100, n % 100;
    var g, t := GroupThousands(q), TwoDigits(r);
    var s := NumberFormat(n);
    assert s == g + "," + t;
    OnlyDigitsJoin(g, ',', t);
    GroupThousandsDigits(q);
    DigitsValueConcat(OnlyDigits(g), t);
    assert Pow10(2) == 100;
    assert DigitsValue(OnlyDigits(g) + t) == q * 100 + r;
    GroupThousandsChars(q);
    forall i | 0 <= i < |s| ensures IsDigit(s[i]) || s[i] == '.' || s[i] == ',' {
      if i < |g| { assert s[i] == g[i]; } else if i > |g| { assert s[i] == t[i - |g| - 1]; }
    }
  }

  lemma {:induction false} OnlyDigitsNone(s: string)
    requires forall i | 0 <= i < |s| :: !IsDigit(s[i])
    ensures OnlyDigits(s) == []
  {
    if s != [] {
      OnlyDigitsNone(s[..|s| - 1]);
    }
  }

  /** A prefix without digits does not change what ReadValor reads, except through a '-'. */
  lemma ReadAfterPrefix(prefix: string, num: string)
    requires forall i | 0 <= i < |prefix| :: !IsDigit(prefix[i])
    requires '-' !in num
    ensures var m: int := DigitsValue(OnlyDigits(num));
      ReadValor(prefix + num) == if '-' in prefix then -m else m
  {
    OnlyDigitsNone(prefix);
    OnlyDigitsConcat(prefix, num);
    assert OnlyDigits(prefix + num) == OnlyDigits(num);
  }

  /** FormatarValor loses nothing: the amount is read back exactly, with or without the symbol. */
  lemma FormatarValorRoundTrip(valor: int, incluirSimbolo: bool)
    ensures ReadValor(FormatarValor(valor, incluirSimbolo)) == valor
  {
    var prefix := (if valor < 0 then "-" else "") + (if incluirSimbolo then "R$ " else "");
    var num := NumberFormat(Abs(valor));
    NumberFormatDigits(Abs(valor));
    assert FormatarValor(valor, incluirSimbolo) == prefix + num;
    ReadAfterPrefix(prefix, num);
    assert ('-' in prefix) <==> valor < 0;
  }

  /** FormatarValor starts with '-' exactly for negative amounts. */
  lemma FormatarValorSign(valor: int, incluirSimbolo: bool)
    ensures |FormatarValor(valor, incluirSimbolo)| > 0
    ensures FormatarValor(valor, incluirSimbolo)[0] == '-' <==> valor < 0
  {
    var g := GroupThousands(Abs(valor) / 100);
    var rest := g + "," + TwoDigits(Abs(valor) % 100);
    assert NumberFormat(Abs(valor)) == rest;
    if valor >= 0 && !incluirSimbolo {
      assert FormatarValor(valor, incluirSimbolo)[0] == rest[0] == g[0];
    }
  }

  /** FormatarValor shows the currency symbol exactly when asked for. */
  lemma FormatarValorSymbol(valor: int, incluirSimbolo: bool)
    ensures ('R' in FormatarValor(valor, incluirSimbolo)) <==> incluirSimbolo
  {
    var prefix := (if valor < 0 then "-" else "") + (if incluirSimbolo then "R$ " else "");
    var num := NumberFormat(Abs(valor));
    NumberFormatDigits(Abs(valor));
    assert FormatarValor(valor, incluirSimbolo) == prefix + num;
    assert ('R' in prefix) <==> incluirSimbolo;
  }

  /** The last three characters of FormatarValor are ',' and the two cent digits. */
  lemma FormatarValorCents(valor: int, incluirSimbolo: bool)
    ensures var s := FormatarValor(valor, incluirSimbolo);
      |s| >= 3 && s[|s| - 3] == ',' && AllDigits(s[|s| - 2..]) && DigitsValue(s[|s| - 2..]) == Abs(valor) % 100
  {
    var s := FormatarValor(valor, incluirSimbolo);
    var t := TwoDigits(Abs(valor) % 100);
    var head := (if valor < 0 then "-" else "") + (if incluirSimbolo then "R$ " else "")
      + GroupThousands(Abs(valor) / 100);
    assert s == head + ("," + t);
    assert |s| == |head| + 3;
    assert s[|s| - 3] == ("," + t)[0] == ',';
    assert s[|s| - 2..] == t;
  }

  /** FormatarReais also loses nothing, the sign travelling inside `number_format`. */
  lemma FormatarReaisRoundTrip(valor: int)
    ensures ReadValor(FormatarReais(valor)) == valor
  {
    var n := Abs(valor);
    var prefix := "R$ " + (if valor < 0 then "-" else "");
    var num := NumberFormat(n);
    assert NumberFormat(valor) == (if valor < 0 then "-" else "") + num;
    assert FormatarReais(valor) == prefix + num;
    NumberFormatDigits(n);
    ReadAfterPrefix(prefix, num);
    assert ('-' in prefix) <==> valor < 0;
  }

  /** A row of amounts, each shown with FormatarReais, in order. */
  function ExibirReais(valores: seq<int>): (r: seq<string>)
    ensures |r| == |valores|
  {
    seq(|valores|, i requires 0 <= i < |valores| => FormatarReais(valores[i]))
  }

  /** Every display of the row reads back to its own amount. */
  lemma ExibirReaisFiel(valores: seq<int>)
    ensures forall i | 0 <= i < |valores| :: ReadValor(ExibirReais(valores)[i]) == valores[i]
  {
    forall i | 0 <= i < |valores|
      ensures ReadValor(ExibirReais(valores)[i]) == valores[i]
    {
      FormatarReaisRoundTrip(valores[i]);
    }
  }

  /** A rotulo without digits or '-' in front of a display does not change what is read. */
  lemma ReadValorLabel(rotulo: string, s: string)
    requires forall i | 0 <= i < |rotulo| :: !IsDigit(rotulo[i]) && rotulo[i] != '-'
    ensures ReadValor(rotulo + s) == ReadValor(s)
  {
    OnlyDigitsNone(rotulo);
    OnlyDigitsConcat(rotulo, s);
    assert '-' !in rotulo;
    assert OnlyDigits(rotulo + s) == OnlyDigits(s);
  }
}
