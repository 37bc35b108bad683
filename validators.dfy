/**
 * The input validators (validators.js). Each regular expression is given two
 * readings: the language it denotes, stated with quantifiers, and the search
 * that `RegExp.prototype.test` performs position by position; lemmas show that
 * the two agree, and the validators are built on the search.
 *
 * Patterns are matched on code points. The classes involved are ASCII classes or
 * their complements, so a character outside the Basic Multilingual Plane (two
 * UTF-16 code units in JavaScript) is matched the same way; only `length`
 * counts code units, through `Utf16Length`.
 */
module Validators {
  import opened Wrappers
  import opened JsText
  import opened Invoices

  // ---------------------------------------------------------------------
  // Searching

  /** The character classes the patterns repeat: `\w`, `\s`, `[^\s@]` and "anything but `.`". */
  datatype CharClass = Word | Space | EmailPart | NotDot

  predicate InClass(cc: CharClass, c: char)
  {
    match cc
    case Word => IsWordChar(c)
    case Space => IsSpace(c)
    case EmailPart => !IsSpace(c) && c != '@'
    case NotDot => c != '.'
  }

  /** Length of the longest run of `cc` characters starting at `i`: a greedy quantifier. */
  function RunFrom(s: string, i: nat, cc: CharClass): (n: nat)
    requires i <= |s|
    ensures i + n <= |s|
    ensures forall k :: i <= k < i + n ==> InClass(cc, s[k])
    ensures i + n == |s| || !InClass(cc, s[i + n])
    decreases |s| - i
  {
    if i < |s| && InClass(cc, s[i]) then 1 + RunFrom(s, i + 1, cc) else 0
  }

  /** A maximal run is unique: a run of `cc` from `i` that stops at `e` is the one `RunFrom` finds. */
  lemma {:induction false} RunFromIs(s: string, i: nat, cc: CharClass, e: nat)
    requires i <= e <= |s|
    requires forall k :: i <= k < e ==> InClass(cc, s[k])
    requires e == |s| || !InClass(cc, s[e])
    ensures RunFrom(s, i, cc) == e - i
    decreases e - i
  {
    if i < e {
      RunFromIs(s, i + 1, cc, e);
    }
  }

  /** `s` has, at position `p`, the lower-case ASCII word `w` in either case (the `i` flag). */
  predicate StartsWithCI(s: string, p: nat, w: string)
  {
    p + |w| <= |s| && forall k :: 0 <= k < |w| ==> ToLowerAscii(s[p + k]) == w[k]
  }

  // ---------------------------------------------------------------------
  // Invoice numbers and plates: /^[A-Z0-9-]{1,20}$/ and /^[A-Z0-9-]{1,10}$/

  predicate IsCodeChar(c: char) { IsUpper(c) || IsDigit(c) || c == '-' }

  /** The class check `[A-Z0-9-]*` run over the whole string. */
  function AllCodeChars(s: string): (r: bool)
    ensures r <==> forall i :: 0 <= i < |s| ==> IsCodeChar(s[i])
    decreases |s|
  {
    s == [] || (IsCodeChar(s[0]) && AllCodeChars(s[1..]))
  }

  function ValidarNumeroFactura(numero: string): (r: bool)
    ensures r <==> 1 <= |numero| <= 20 && forall i :: 0 <= i < |numero| ==> IsCodeChar(numero[i])
  {
    1 <= |numero| <= 20 && AllCodeChars(numero)
  }

  function ValidarPlaca(placa: string): (r: bool)
    ensures r <==> 1 <= |placa| <= 10 && forall i :: 0 <= i < |placa| ==> IsCodeChar(placa[i])
  {
    1 <= |placa| <= 10 && AllCodeChars(placa)
  }

  /** Every valid plate is also a valid invoice number. */
  lemma PlacaIsNumeroFactura(s: string)
    ensures ValidarPlaca(s) ==> ValidarNumeroFactura(s)
  {
  }

  /** A lower-case letter anywhere rules out both a plate and an invoice number. */
  lemma LowerCaseRejected(s: string, i: nat)
    requires i < |s| && IsLower(s[i])
    ensures !ValidarPlaca(s) && !ValidarNumeroFactura(s)
  {
  }

  /** A missing value is tested as the text `"undefined"`, which the class rejects. */
  lemma UndefinedIsRejected()
    ensures !ValidarPlaca("undefined") && !ValidarNumeroFactura("undefined")
  {
    assert !IsCodeChar("undefined"[0]);
  }

  // ---------------------------------------------------------------------
  // Prices and quantities

  /** `!isNaN(parseFloat(precio)) && num >= 0 && num <= 999999.99` */
  function ValidarPrecio(precio: string): bool
  {
    var num := ParseFloat(precio);
    num.Some? && num.value >= 0.0 && num.value <= 999999.99
  }

  /** `!isNaN(parseInt(cantidad, 10)) && num > 0 && num <= 9999` */
  function ValidarCantidad(cantidad: string): bool
  {
    var num := ParseInt(cantidad, true);
    num.Some? && num.value > 0 && num.value <= 9999
  }

  /** A rendered integer is a valid price exactly when it lies in 0..999999. */
  lemma ValidarPrecioOfInt(n: int)
    ensures ValidarPrecio(ShowInt(n)) <==> 0 <= n <= 999999
  {
    ParseFloatShowInt(n);
  }

  /** A rendered integer is a valid quantity exactly when it lies in 1..9999. */
  lemma ValidarCantidadOfInt(n: int)
    ensures ValidarCantidad(ShowInt(n)) <==> 1 <= n <= 9999
  {
    ParseIntShowInt(n, []);
    assert ShowInt(n) + [] == ShowInt(n);
  }

  /** Trailing text is ignored: `'12 unidades'` is the valid quantity 12. */
  lemma ValidarCantidadIgnoresSuffix(n: int, rest: string)
    requires rest == [] || !IsDigit(rest[0])
    ensures ValidarCantidad(ShowInt(n) + rest) <==> 1 <= n <= 9999
  {
    ParseIntShowInt(n, rest);
  }

  // ---------------------------------------------------------------------
  // Free text: the three dangerous patterns

  /** `[<>'"]` */
  predicate IsTagChar(c: char) { c == '<' || c == '>' || c == '\'' || c == '"' }

  /** Every character of `s[a..b]` is in `cc`. */
  predicate AllIn(s: string, a: nat, b: nat, cc: CharClass)
    requires a <= b <= |s|
  {
    forall k :: a <= k < b ==> InClass(cc, s[k])
  }

  /** The language of `\w+\s*=` at `i`: one or more word characters, spaces, then `=`. */
  ghost predicate HandlerTailAt(s: string, i: nat)
  {
    exists q: nat, r: nat :: i < q <= r < |s| && AllIn(s, i, q, Word) && AllIn(s, q, r, Space) && s[r] == '='
  }

  /** How the matcher reads `\w+\s*=` at `i`: the word run, then the space run, then `=`. */
  predicate HandlerTailScan(s: string, i: nat)
  {
    && i <= |s|
    && var k := RunFrom(s, i, Word);
    && k > 0
    && var m := RunFrom(s, i + k, Space);
    && i + k + m < |s|
    && s[i + k + m] == '='
  }

  /** The language of `on\w+\s*=` at `p`. */
  ghost predicate OnHandlerAt(s: string, p: nat)
  {
    StartsWithCI(s, p, "on") && HandlerTailAt(s, p + 2)
  }

  /** How the matcher reads `on\w+\s*=` at `p`. */
  predicate OnHandlerScan(s: string, p: nat)
  {
    StartsWithCI(s, p, "on") && HandlerTailScan(s, p + 2)
  }

  /** White space and `=` are not word characters. */
  lemma WordStopsAt(c: char)
    requires IsSpace(c) || c == '='
    ensures !IsWordChar(c)
  {
  }

  /** Whatever the greedy matcher accepts at `i` is in the language of `\w+\s*=`. */
  lemma HandlerTailScanSound(s: string, i: nat)
    requires HandlerTailScan(s, i)
    ensures HandlerTailAt(s, i)
  {
    var q := i + RunFrom(s, i, Word);
    var r := q + RunFrom(s, q, Space);
    assert AllIn(s, i, q, Word);
    assert AllIn(s, q, r, Space);
  }

  /**
   * The greedy reading loses no match: `\w`, `\s` and `=` are disjoint, so the
   * word run ends where the spaces begin and the space run ends at the `=`.
   */
  lemma HandlerTailScanComplete(s: string, i: nat, q: nat, r: nat)
    requires i < q <= r < |s| && AllIn(s, i, q, Word) && AllIn(s, q, r, Space) && s[r] == '='
    ensures HandlerTailScan(s, i)
  {
    WordStopsAt(s[q]);
    RunFromIs(s, i, Word, q);
    RunFromIs(s, q, Space, r);
  }

  /** The matcher finds `\w+\s*=` at `i` exactly when the pattern's language has a match there. */
  lemma HandlerTailScanIff(s: string, i: nat)
    ensures HandlerTailScan(s, i) <==> HandlerTailAt(s, i)
  {
    if HandlerTailAt(s, i) {
      var q: nat, r: nat :| i < q <= r < |s| && AllIn(s, i, q, Word) && AllIn(s, q, r, Space) && s[r] == '=';
      HandlerTailScanComplete(s, i, q, r);
    }
    if HandlerTailScan(s, i) {
      HandlerTailScanSound(s, i);
    }
  }

  /** The matcher finds `on\w+\s*=` at `p` exactly when the pattern's language has a match there. */
  lemma OnHandlerScanIff(s: string, p: nat)
    ensures OnHandlerScan(s, p) <==> OnHandlerAt(s, p)
  {
    HandlerTailScanIff(s, p + 2);
  }

  /** `\bw\b` at `p`, case-insensitive: `w` with no word character on either side. */
  predicate WholeWordAt(s: string, p: nat, w: string)
  {
    && StartsWithCI(s, p, w)
    && (p == 0 || !IsWordChar(s[p - 1]))
    && (p + |w| == |s| || !IsWordChar(s[p + |w|]))
  }

  /** The three entries of `dangerousPatterns`. */
  datatype Pattern =
    | Xss  // /<script|javascript:|on\w+\s*=/i
    | Sql  // /(\bOR\b|\bAND\b|\bDROP\b|\bINSERT\b)/i
    | Tag  // /[<>'"]/

  /** Whether `pat` has a match starting at position `p`. */
  predicate MatchesAt(pat: Pattern, s: string, p: nat)
  {
    match pat
    case Xss => StartsWithCI(s, p, "<script") || StartsWithCI(s, p, "javascript:") || OnHandlerScan(s, p)
    case Sql => WholeWordAt(s, p, "or") || WholeWordAt(s, p, "and") || WholeWordAt(s, p, "drop") || WholeWordAt(s, p, "insert")
    case Tag => p < |s| && IsTagChar(s[p])
  }

  /** `pattern.test(s)`, trying every start position from `from` on. */
  function Test(pat: Pattern, s: string, from: nat): (r: bool)
    ensures r <==> exists p :: from <= p <= |s| && MatchesAt(pat, s, p)
    decreases |s| + 1 - from
  {
    if from > |s| then false else MatchesAt(pat, s, from) || Test(pat, s, from + 1)
  }

  /** `dangerousPatterns.some(pattern => pattern.test(texto))` */
  function HasDangerousPattern(s: string): bool
  {
    Test(Xss, s, 0) || Test(Sql, s, 0) || Test(Tag, s, 0)
  }

  /**
   * The text contains none of the patterns, stated in the patterns' own terms:
   * no `<`, `>` or quote, no SQL keyword as a whole word, no `<script` or
   * `javascript:`, and no `on...=` event handler.
   */
  ghost predicate DangerFree(s: string)
  {
    && (forall k :: 0 <= k < |s| ==> !IsTagChar(s[k]))
    && (forall p :: 0 <= p <= |s| ==> !MatchesAt(Sql, s, p))
    && (forall p :: 0 <= p <= |s| ==> !StartsWithCI(s, p, "<script") && !StartsWithCI(s, p, "javascript:"))
    && (forall p :: 0 <= p <= |s| ==> !OnHandlerAt(s, p))
  }

  /** The search finds nothing exactly when the text is free of every pattern. */
  lemma NoDangerIff(s: string)
    ensures !HasDangerousPattern(s) <==> DangerFree(s)
  {
    forall p | 0 <= p <= |s| ensures OnHandlerScan(s, p) <==> OnHandlerAt(s, p) {
      OnHandlerScanIff(s, p);
    }
    if DangerFree(s) {
      forall p | 0 <= p <= |s| ensures !MatchesAt(Tag, s, p) {
        if p < |s| { assert !IsTagChar(s[p]); }
      }
    } else if k :| 0 <= k < |s| && IsTagChar(s[k]) {
      assert MatchesAt(Tag, s, k);
    } else if p :| 0 <= p <= |s| && MatchesAt(Sql, s, p) {
      assert Test(Sql, s, 0);
    } else if p :| 0 <= p <= |s| && (StartsWithCI(s, p, "<script") || StartsWithCI(s, p, "javascript:")) {
      assert MatchesAt(Xss, s, p);
    } else {
      var p :| 0 <= p <= |s| && OnHandlerAt(s, p);
      assert MatchesAt(Xss, s, p);
    }
  }

  /**
   * `validarTexto(texto, minLength, maxLength)`: a non-empty string whose trimmed
   * length is within the bounds and which contains none of the dangerous patterns.
   * The bounds are checked on the trimmed text, the patterns on the text as given.
   */
  function ValidarTexto(texto: Option<string>, minLength: int, maxLength: int): bool
  {
    match texto
    case None => false
    case Some(s) =>
      if s == [] then false
      else
        var len := Utf16Length(Trim(s));
        if len < minLength || len > maxLength then false
        else !HasDangerousPattern(s)
  }

  const DefaultMinLength := 1
  const DefaultMaxLength := 500

  /**
   * What an accepted text is: present, non-empty, within the bounds once trimmed
   * and free of every pattern; and every such text is accepted.
   */
  lemma ValidarTextoIff(texto: Option<string>, minLength: int, maxLength: int)
    ensures ValidarTexto(texto, minLength, maxLength) <==>
              && texto.Some? && texto.value != []
              && minLength <= Utf16Length(Trim(texto.value)) <= maxLength
              && DangerFree(texto.value)
  {
    if texto.Some? {
      NoDangerIff(texto.value);
    }
  }

  /** An apostrophe is enough to reject a name such as O'Brien. */
  lemma ApostropheRejected(s: string, k: nat)
    requires k < |s| && s[k] == '\''
    ensures !ValidarTexto(Some(s), DefaultMinLength, DefaultMaxLength)
  {
    assert MatchesAt(Tag, s, k);
  }

  /** A standalone "or" in any case rejects the text, so "Pedro or Juan" is not a valid name. */
  lemma StandaloneOrRejected(a: string, b: string)
    requires a == [] || !IsWordChar(a[|a| - 1])
    requires b == [] || !IsWordChar(b[0])
    ensures !ValidarTexto(Some(a + "Or" + b), DefaultMinLength, DefaultMaxLength)
  {
    var s := a + "Or" + b;
    var p := |a|;
    assert s[p] == 'O' && s[p + 1] == 'r';
    assert ToLowerAscii('O') == 'o';
    assert StartsWithCI(s, p, "or");
    assert p > 0 ==> s[p - 1] == a[p - 1];
    assert p + 2 < |s| ==> s[p + 2] == b[0];
    assert MatchesAt(Sql, s, p);
  }

  // ---------------------------------------------------------------------
  // E-mail: /^[^\s@]+@[^\s@]+\.[^\s@]+$/ and at most 254 code units

  /** The regular expression matches with the `@` at `i` and the `.` at `j`. */
  predicate EmailSplit(s: string, i: nat, j: nat)
  {
    && 0 < i && i + 1 < j && j + 1 < |s|
    && s[i] == '@' && s[j] == '.'
    && AllIn(s, 0, i, EmailPart) && AllIn(s, i + 1, j, EmailPart) && AllIn(s, j + 1, |s|, EmailPart)
  }

  /** The language of the e-mail pattern. */
  ghost predicate EmailLanguage(s: string)
  {
    exists i: nat, j: nat :: EmailSplit(s, i, j)
  }

  /**
   * How the pattern is matched: the local part runs up to the first `@` or white
   * space, which must be an `@`; nothing after it may be white space or another
   * `@`; and the first `.` after the domain's first character must leave at least
   * one character after it.
   */
  predicate EmailScan(s: string)
  {
    var i := RunFrom(s, 0, EmailPart);
    && 0 < i && i + 2 < |s| && s[i] == '@'
    && RunFrom(s, i + 1, EmailPart) == |s| - (i + 1)
    && var d := RunFrom(s, i + 2, NotDot);
    && i + 2 + d + 1 < |s|
  }

  /** The scan accepts exactly the language of the pattern. */
  lemma EmailScanIff(s: string)
    ensures EmailScan(s) <==> EmailLanguage(s)
  {
    if EmailScan(s) {
      EmailScanSound(s);
    }
    if EmailLanguage(s) {
      var i: nat, j: nat :| EmailSplit(s, i, j);
      EmailScanComplete(s, i, j);
    }
  }

  /** What the scan accepts splits as the pattern requires, at the `@` it found and the first dot after it. */
  lemma EmailScanSound(s: string)
    requires EmailScan(s)
    ensures EmailSplit(s, RunFrom(s, 0, EmailPart), RunFrom(s, 0, EmailPart) + 2 + RunFrom(s, RunFrom(s, 0, EmailPart) + 2, NotDot))
  {
    var i := RunFrom(s, 0, EmailPart);
    assert AllIn(s, i + 1, |s|, EmailPart);
  }

  /** Any split the pattern allows is found by the scan. */
  lemma EmailScanComplete(s: string, i: nat, j: nat)
    requires EmailSplit(s, i, j)
    ensures EmailScan(s)
  {
    assert AllIn(s, i + 1, |s|, EmailPart) by {
      forall k | i + 1 <= k < |s| ensures InClass(EmailPart, s[k]) {
        if k == j {
          assert s[k] == '.';
        }
      }
    }
    // The local part stops at the `@`, the domain runs to the end, and the
    // first dot of the domain comes no later than `j`.
    RunFromIs(s, 0, EmailPart, i);
    RunFromIs(s, i + 1, EmailPart, |s|);
    EarlierDot(s, i + 2, j);
  }

  /** A run of non-dots from `i` stops no later than a dot at `j >= i`. */
  lemma {:induction false} EarlierDot(s: string, i: nat, j: nat)
    requires i <= j < |s| && s[j] == '.'
    ensures i + RunFrom(s, i, NotDot) <= j
    decreases j - i
  {
    if i < j && s[i] != '.' {
      EarlierDot(s, i + 1, j);
    }
  }

  /** `emailRegex.test(email) && email.length <= 254` */
  function ValidarEmail(email: string): bool
  {
    EmailScan(email) && Utf16Length(email) <= 254
  }

  /** An accepted address has exactly one `@`, no white space, and a `.` strictly inside the domain. */
  lemma ValidarEmailShape(email: string)
    requires ValidarEmail(email)
    ensures |email| <= 254
    ensures exists i :: 0 < i < |email| && email[i] == '@' &&
              (forall k :: 0 <= k < |email| && k != i ==> email[k] != '@') &&
              (exists j :: i + 1 < j < |email| - 1 && email[j] == '.')
    ensures forall k :: 0 <= k < |email| ==> !IsSpace(email[k])
  {
    EmailScanIff(email);
    var i: nat, j: nat :| EmailSplit(email, i, j);
    assert forall k :: 0 <= k < |email| && k != i && k != j ==> InClass(EmailPart, email[k]);
  }

  /** The pattern lets a second dot or a trailing dot through: `a@b.c.` is accepted. */
  lemma TrailingDotAccepted()
    ensures ValidarEmail("a@b.c.")
  {
    var s := "a@b.c.";
    assert EmailSplit(s, 1, 3);
    EmailScanIff(s);
  }

  // ---------------------------------------------------------------------
  // Passwords

  /** `[!@#$%^&*()_+\-=\[\]{};:,.<>?]` */
  predicate IsSpecial(c: char)
  {
    c in "!@#$%^&*()_+-=[]{};:,.<>?"
  }

  predicate HasCharIn(s: string, inClass: char -> bool)
  {
    exists i :: 0 <= i < |s| && inClass(s[i])
  }

  /** One line of the requirements list: whether it is met and its label. */
  datatype Requisito = Requisito(cumple: bool, texto: string)

  datatype Requisitos = Requisitos(
    longitud: Requisito,
    mayuscula: Requisito,
    minuscula: Requisito,
    numero: Requisito,
    especial: Requisito)
  {
    /** `Object.values(requisitos).every(r => r.cumple)` */
    predicate TodosCumplen()
    {
      longitud.cumple && mayuscula.cumple && minuscula.cumple && numero.cumple && especial.cumple
    }
  }

  /** `obtenerRequisitos(password)`: the five rules with their labels, for display. */
  function ObtenerRequisitos(password: string): Requisitos
  {
    Requisitos(
      Requisito(Utf16Length(password) >= 12, "M\U{ED}nimo 12 caracteres"),
      Requisito(HasCharIn(password, IsUpper), "Al menos una may\U{FA}scula"),
      Requisito(HasCharIn(password, IsLower), "Al menos una min\U{FA}scula"),
      Requisito(HasCharIn(password, IsDigit), "Al menos un n\U{FA}mero"),
      Requisito(HasCharIn(password, IsSpecial), "Al menos un car\U{E1}cter especial"))
  }

  /** `validarContrasena(password)`; `None` is a missing password. */
  function ValidarContrasena(password: Option<string>): bool
  {
    match password
    case None => false
    case Some(p) =>
      if p == [] || Utf16Length(p) < 12 then false
      else
        var requisitos := (
          Utf16Length(p) >= 12, HasCharIn(p, IsUpper), HasCharIn(p, IsLower),
          HasCharIn(p, IsDigit), HasCharIn(p, IsSpecial));
        requisitos.0 && requisitos.1 && requisitos.2 && requisitos.3 && requisitos.4
  }

  /** A password is accepted exactly when every requirement shown to the user is met. */
  lemma ContrasenaIffRequisitos(p: string)
    ensures ValidarContrasena(Some(p)) <==> ObtenerRequisitos(p).TodosCumplen()
  {
  }

  /** The five rules, spelled out. */
  lemma ContrasenaRules(p: string)
    ensures ValidarContrasena(Some(p)) <==>
              && Utf16Length(p) >= 12
              && (exists i :: 0 <= i < |p| && IsUpper(p[i]))
              && (exists i :: 0 <= i < |p| && IsLower(p[i]))
              && (exists i :: 0 <= i < |p| && IsDigit(p[i]))
              && (exists i :: 0 <= i < |p| && IsSpecial(p[i]))
  {
  }

  /**
   * Five characters are never enough, whatever they are: even outside the Basic
   * Multilingual Plane they make at most ten UTF-16 units.
   */
  lemma ShortPasswordRejected(p: string)
    requires |p| <= 5
    ensures !ValidarContrasena(Some(p))
  {
  }

  // ---------------------------------------------------------------------
  // The invoice check

  /** The object `validarFactura` receives; `None` is a missing property. */
  datatype FacturaAValidar = FacturaAValidar(
    numeroFactura: Option<string>,
    placa: Option<string>,
    cliente: Option<string>,
    servicios: Option<seq<ServiceLine>>,
    repuestos: Option<seq<PartLine>>)

  const MsgNumero := "N\U{FA}mero de factura inv\U{E1}lido"
  const MsgPlaca := "Placa de veh\U{ED}culo inv\U{E1}lida"
  const MsgCliente := "Nombre de cliente inv\U{E1}lido"
  const MsgPrecioServicio := "Uno o m\U{E1}s precios de servicio son inv\U{E1}lidos"
  const MsgPrecioRepuesto := "Uno o m\U{E1}s precios de repuesto son inv\U{E1}lidos"
  const MsgCantidadServicio := "Una o m\U{E1}s cantidades de servicio son inv\U{E1}lidas"
  const MsgCantidadRepuesto := "Una o m\U{E1}s cantidades de repuesto son inv\U{E1}lidas"

  /** The seven messages in the order the checks run. */
  const Mensajes := [MsgNumero, MsgPlaca, MsgCliente, MsgPrecioServicio,
                     MsgPrecioRepuesto, MsgCantidadServicio, MsgCantidadRepuesto]

  /** A value that reaches a regular expression as text: a missing one is `"undefined"`. */
  function AsText(x: Option<string>): string
  {
    x.GetOr("undefined")
  }

  /** Which field of a line a check reads: the price or the quantity. */
  datatype LineCheck = Precio | Cantidad

  /** `validarPrecio(s.precio)` or `validarCantidad(s.cantidad)` on a service line. */
  predicate ServicioValido(c: LineCheck, s: ServiceLine)
  {
    match c
    case Precio => ValidarPrecio(s.precio)
    case Cantidad => ValidarCantidad(s.cantidad)
  }

  /** `validarPrecio(r.precio_unitario)` or `validarCantidad(r.cantidad)` on a part line. */
  predicate RepuestoValido(c: LineCheck, r: PartLine)
  {
    match c
    case Precio => ValidarPrecio(r.precioUnitario)
    case Cantidad => ValidarCantidad(r.cantidad)
  }

  /** `servicios.some(s => !valid(s))`, scanning from the first line. */
  predicate AlgunServicioInvalido(c: LineCheck, items: seq<ServiceLine>)
    decreases |items|
  {
    items != [] && (!ServicioValido(c, items[0]) || AlgunServicioInvalido(c, items[1..]))
  }

  /** `repuestos.some(r => !valid(r))`, scanning from the first line. */
  predicate AlgunRepuestoInvalido(c: LineCheck, items: seq<PartLine>)
    decreases |items|
  {
    items != [] && (!RepuestoValido(c, items[0]) || AlgunRepuestoInvalido(c, items[1..]))
  }

  /** The scan finds an invalid service line exactly when there is one. */
  lemma {:induction false} AlgunServicioInvalidoIff(c: LineCheck, items: seq<ServiceLine>)
    ensures AlgunServicioInvalido(c, items) <==> exists i :: 0 <= i < |items| && !ServicioValido(c, items[i])
    decreases |items|
  {
    if items != [] {
      AlgunServicioInvalidoIff(c, items[1..]);
      if i :| 0 <= i < |items| && !ServicioValido(c, items[i]) {
        if i > 0 {
          assert items[1..][i - 1] == items[i];
        }
      }
      if i :| 0 <= i < |items[1..]| && !ServicioValido(c, items[1..][i]) {
        assert items[i + 1] == items[1..][i];
      }
    }
  }

  /** The scan finds an invalid part line exactly when there is one. */
  lemma {:induction false} AlgunRepuestoInvalidoIff(c: LineCheck, items: seq<PartLine>)
    ensures AlgunRepuestoInvalido(c, items) <==> exists i :: 0 <= i < |items| && !RepuestoValido(c, items[i])
    decreases |items|
  {
    if items != [] {
      AlgunRepuestoInvalidoIff(c, items[1..]);
      if i :| 0 <= i < |items| && !RepuestoValido(c, items[i]) {
        if i > 0 {
          assert items[1..][i - 1] == items[i];
        }
      }
      if i :| 0 <= i < |items[1..]| && !RepuestoValido(c, items[1..][i]) {
        assert items[i + 1] == items[1..][i];
      }
    }
  }

  /** `factura.cliente && !validarTexto(factura.cliente, 1, 100)`: an empty or missing client is not checked. */
  predicate ClienteInvalido(cliente: Option<string>)
  {
    cliente.Some? && cliente.value != [] && !ValidarTexto(cliente, 1, 100)
  }

  /** Whether check `k` of `validarFactura` fails, numbering the checks in the order they run. */
  predicate Falla(f: FacturaAValidar, k: nat)
  {
    if k == 0 then !ValidarNumeroFactura(AsText(f.numeroFactura))
    else if k == 1 then !ValidarPlaca(AsText(f.placa))
    else if k == 2 then ClienteInvalido(f.cliente)
    else if k == 3 then f.servicios.Some? && AlgunServicioInvalido(Precio, f.servicios.value)
    else if k == 4 then f.repuestos.Some? && AlgunRepuestoInvalido(Precio, f.repuestos.value)
    else if k == 5 then f.servicios.Some? && AlgunServicioInvalido(Cantidad, f.servicios.value)
    else k == 6 && f.repuestos.Some? && AlgunRepuestoInvalido(Cantidad, f.repuestos.value)
  }

  /** The messages the first `n` checks push, in order: check `k` pushes `Mensajes[k]` when it fails. */
  function Pushed(f: FacturaAValidar, n: nat): (r: seq<string>)
    requires n <= |Mensajes|
    ensures |r| <= n
  {
    if n == 0 then []
    else if Falla(f, n - 1) then Pushed(f, n - 1) + [Mensajes[n - 1]]
    else Pushed(f, n - 1)
  }

  /** The `errores` array `validarFactura` returns. */
  function Errores(f: FacturaAValidar): seq<string>
  {
    Pushed(f, |Mensajes|)
  }

  /** How many of the first `n` checks fail. */
  function CountFailures(f: FacturaAValidar, n: nat): nat
  {
    if n == 0 then 0 else CountFailures(f, n - 1) + (if Falla(f, n - 1) then 1 else 0)
  }

  /** One message per failing check. */
  lemma {:induction false} PushedLength(f: FacturaAValidar, n: nat)
    requires n <= |Mensajes|
    ensures |Pushed(f, n)| == CountFailures(f, n)
  {
    if n > 0 {
      PushedLength(f, n - 1);
    }
  }

  /** A message is pushed exactly when it belongs to some failing check. */
  lemma {:induction false} PushedMembers(f: FacturaAValidar, n: nat, m: string)
    requires n <= |Mensajes|
    ensures m in Pushed(f, n) <==> exists i :: 0 <= i < n && Falla(f, i) && Mensajes[i] == m
  {
    if n > 0 {
      PushedMembers(f, n - 1, m);
    }
  }

  /** Nothing is pushed exactly when none of the checks fails. */
  lemma {:induction false} PushedEmptyIff(f: FacturaAValidar, n: nat)
    requires n <= |Mensajes|
    ensures Pushed(f, n) == [] <==> forall i :: 0 <= i < n ==> !Falla(f, i)
  {
    if n > 0 {
      PushedEmptyIff(f, n - 1);
    }
  }

  /** `errores` holds one message per failing check. */
  lemma ErroresLength(f: FacturaAValidar)
    ensures |Errores(f)| == CountFailures(f, |Mensajes|)
  {
    PushedLength(f, |Mensajes|);
  }

  /** No two checks share a message. */
  lemma MensajesDistintos()
    ensures forall i, j :: 0 <= i < j < |Mensajes| ==> Mensajes[i] != Mensajes[j]
  {
    assert MsgNumero[1] != MsgCliente[1];
    assert MsgPrecioServicio[21] != MsgPrecioRepuesto[21];
    assert MsgCantidadServicio[24] != MsgCantidadRepuesto[24];
  }

  /** Check `k`'s message is reported exactly when check `k` fails. */
  lemma MensajeIffFalla(f: FacturaAValidar, k: nat)
    requires k < |Mensajes|
    ensures Mensajes[k] in Errores(f) <==> Falla(f, k)
  {
    PushedMembers(f, |Mensajes|, Mensajes[k]);
    MensajesDistintos();
  }

  /**
   * The invoice is valid exactly when the number and the plate are well formed,
   * a client name, when given, is acceptable text of 1 to 100 characters, and
   * every line present has a valid price and a valid quantity.
   */
  lemma ValidoIffAllChecksPass(f: FacturaAValidar)
    ensures Errores(f) == [] <==>
              && ValidarNumeroFactura(AsText(f.numeroFactura))
              && ValidarPlaca(AsText(f.placa))
              && !ClienteInvalido(f.cliente)
              && (f.servicios.Some? ==> forall i :: 0 <= i < |f.servicios.value| ==>
                    ValidarPrecio(f.servicios.value[i].precio) && ValidarCantidad(f.servicios.value[i].cantidad))
              && (f.repuestos.Some? ==> forall i :: 0 <= i < |f.repuestos.value| ==>
                    ValidarPrecio(f.repuestos.value[i].precioUnitario) && ValidarCantidad(f.repuestos.value[i].cantidad))
  {
    PushedEmptyIff(f, 7);
    assert (forall i :: 0 <= i < 7 ==> !Falla(f, i)) <==>
      !Falla(f, 0) && !Falla(f, 1) && !Falla(f, 2) && !Falla(f, 3) && !Falla(f, 4) && !Falla(f, 5) && !Falla(f, 6);
    if f.servicios.Some? {
      AlgunServicioInvalidoIff(Precio, f.servicios.value);
      AlgunServicioInvalidoIff(Cantidad, f.servicios.value);
    }
    if f.repuestos.Some? {
      AlgunRepuestoInvalidoIff(Precio, f.repuestos.value);
      AlgunRepuestoInvalidoIff(Cantidad, f.repuestos.value);
    }
  }

  /** Missing line lists add no message: only the three header checks can fail. */
  lemma MissingListsAddNothing(f: FacturaAValidar)
    requires f.servicios.None? && f.repuestos.None?
    ensures Errores(f) == Pushed(f, 3)
    ensures |Errores(f)| <= 3
  {
    assert !Falla(f, 3) && !Falla(f, 4) && !Falla(f, 5) && !Falla(f, 6);
    assert Pushed(f, 4) == Pushed(f, 3);
    assert Pushed(f, 5) == Pushed(f, 3);
    assert Pushed(f, 6) == Pushed(f, 3);
    assert Errores(f) == Pushed(f, 7);
  }

  /**
   * `validarFactura(factura)`: runs the seven checks in order, pushing one message
   * for each failure (each `if (...) errores.push(msg)` is written as appending
   * `[msg]` or nothing), and reports `valido` when none was pushed.
   */
  method ValidarFactura(f: FacturaAValidar) returns (valido: bool, errores: seq<string>)
    ensures errores == Errores(f)
    ensures valido <==> errores == []
  {
    errores := [];
    errores := errores + (if !ValidarNumeroFactura(AsText(f.numeroFactura)) then [MsgNumero] else []);
    assert errores == Pushed(f, 1);
    errores := errores + (if !ValidarPlaca(AsText(f.placa)) then [MsgPlaca] else []);
    assert errores == Pushed(f, 2);
    errores := errores + (if ClienteInvalido(f.cliente) then [MsgCliente] else []);
    assert errores == Pushed(f, 3);
    errores := errores + (if f.servicios.Some? && AlgunServicioInvalido(Precio, f.servicios.value) then [MsgPrecioServicio] else []);
    assert errores == Pushed(f, 4);
    errores := errores + (if f.repuestos.Some? && AlgunRepuestoInvalido(Precio, f.repuestos.value) then [MsgPrecioRepuesto] else []);
    assert errores == Pushed(f, 5);
    errores := errores + (if f.servicios.Some? && AlgunServicioInvalido(Cantidad, f.servicios.value) then [MsgCantidadServicio] else []);
    assert errores == Pushed(f, 6);
    errores := errores + (if f.repuestos.Some? && AlgunRepuestoInvalido(Cantidad, f.repuestos.value) then [MsgCantidadRepuesto] else []);
    assert errores == Pushed(f, 7);
    valido := |errores| == 0;
  }
}
