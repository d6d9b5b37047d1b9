/**
 * The request validators run before the controllers. Each validator is a list of field
 * chains in the style of express-validator: a chain names a body field, may be optional
 * (skipped when the field is absent), and runs its steps in order; a `trim` step sanitizes
 * the value seen by the later steps, and every failing check adds one error carrying that
 * check's message. `handleValidationErrors` then answers 400 with all errors, or passes on.
 */
module Validation {
  import opened Wrappers
  import opened Lists
  import opened Text
  import Products

  /** A request body as the validators see it: the string form of each field that is present. */
  type Fields = map<string, string>

  /** One entry of `validationResult(req).array()`. */
  datatype FieldError = FieldError(field: string, message: string)

  /** One step of a chain: the `trim` sanitizer, or a validator with its `withMessage` text. */
  datatype Step =
    | TrimStep
    | Check(test: string -> bool, message: string)

  /** `body(field)` followed by its steps; `optional` is `.optional()`. */
  datatype Chain = Chain(field: string, optional: bool, steps: seq<Step>)

  /** The validators the backend takes from validator.js without restating them: `isEmail`,
      `isMobilePhone`, and the number `isFloat` reads from a float literal (None when the text
      is not one). */
  datatype Checkers = Checkers(isEmail: string -> bool, isMobilePhone: string -> bool,
                               floatValue: string -> Option<real>)

  /** Running the steps of a chain on `value`: each is applied to the value as the earlier
      sanitizers left it, and the errors come out in step order. */
  function RunSteps(field: string, value: string, steps: seq<Step>): (r: seq<FieldError>)
    ensures |r| <= |steps|
    ensures forall i :: 0 <= i < |r| ==> r[i].field == field
  {
    if steps == [] then []
    else
      match steps[0]
      case TrimStep => RunSteps(field, Trim(value), steps[1..])
      case Check(test, message) =>
        (if test(value) then [] else [FieldError(field, message)]) + RunSteps(field, value, steps[1..])
  }

  /** The value a chain validates: a missing field reads as the empty string. */
  function ValueOf(fields: Fields, name: string): string {
    if name in fields then fields[name] else ""
  }

  /** The errors of one chain: none when an optional field is absent. */
  function RunChain(fields: Fields, c: Chain): (r: seq<FieldError>)
    ensures c.optional && c.field !in fields ==> r == []
    ensures forall i :: 0 <= i < |r| ==> r[i].field == c.field
  {
    if c.optional && c.field !in fields then [] else RunSteps(c.field, ValueOf(fields, c.field), c.steps)
  }

  /** `validationResult(req).array()` after every chain has run, in chain order. */
  function Errors(fields: Fields, chains: seq<Chain>): seq<FieldError> {
    if chains == [] then [] else RunChain(fields, chains[0]) + Errors(fields, chains[1..])
  }

  /** What `handleValidationErrors` does: call `next()`, or answer 400 "Validation errors". */
  datatype Gate = Next | Rejected(errors: seq<FieldError>)
  {
    function Status(): nat
      requires Rejected?
    {
      400
    }
  }

  /** `handleValidationErrors`: any error rejects the request, with every error listed. */
  function HandleValidationErrors(errors: seq<FieldError>): (g: Gate)
    ensures g == Next <==> errors == []
    ensures g.Rejected? ==> g.errors == errors && g.Status() == 400
  {
    if errors != [] then Rejected(errors) else Next
  }

  /** A validator array: its chains followed by `handleValidationErrors`. */
  function Validate(fields: Fields, chains: seq<Chain>): Gate {
    HandleValidationErrors(Errors(fields, chains))
  }

  /** The errors reported for one field. */
  function ErrorsFor(errors: seq<FieldError>, field: string): seq<FieldError> {
    Filter(errors, (e: FieldError) => e.field == field)
  }

  function ChainField(c: Chain): string { c.field }

  // ----- Checks -----

  /** `isLength({ min, max })`, counting code points. */
  function LengthIn(lo: nat, hi: nat): string -> bool {
    (s: string) => lo <= |s| <= hi
  }

  /** `isLength({ min })`. */
  function LengthAtLeast(lo: nat): string -> bool {
    (s: string) => lo <= |s|
  }

  /** `isLength({ max })`. */
  function LengthAtMost(hi: nat): string -> bool {
    (s: string) => |s| <= hi
  }

  /** `notEmpty()`. */
  predicate NotEmpty(s: string) {
    s != ""
  }

  /** `isIn(values)`. */
  function IsIn(values: seq<string>): string -> bool {
    (s: string) => s in values
  }

  /** One character of the class `[a-zA-Z0-9_-]`. */
  predicate IsUsernameChar(c: char) {
    IsAsciiLower(c) || IsAsciiUpper(c) || IsDigit(c) || c == '_' || c == '-'
  }

  /** `matches(/^[a-zA-Z0-9_-]+$/)`. */
  predicate MatchesUsername(s: string) {
    |s| >= 1 && forall i :: 0 <= i < |s| ==> IsUsernameChar(s[i])
  }

  predicate NotLineTerminator(c: char) {
    !IsLineTerminator(c)
  }

  /** The part of `s` a lookahead `(?=.*X)` anchored at the start can scan: `.` stops at the
      first line terminator. */
  function FirstLine(s: string): (line: string)
    ensures |line| <= |s| && line == s[..|line|]
    ensures forall i :: 0 <= i < |line| ==> !IsLineTerminator(line[i])
    ensures |line| < |s| ==> IsLineTerminator(s[|line|])
  {
    s[..PrefixWhile(s, NotLineTerminator)]
  }

  predicate HasLower(s: string) { exists i :: 0 <= i < |s| && IsAsciiLower(s[i]) }
  predicate HasUpper(s: string) { exists i :: 0 <= i < |s| && IsAsciiUpper(s[i]) }
  predicate HasDigit(s: string) { exists i :: 0 <= i < |s| && IsDigit(s[i]) }

  /** `matches(/^(?=.*[a-z])(?=.*[A-Z])(?=.*\d)/)`. */
  predicate MatchesPasswordPattern(s: string) {
    var line := FirstLine(s);
    HasLower(line) && HasUpper(line) && HasDigit(line)
  }

  /** The digits of an integer literal, after an optional sign. */
  function UnsignedPart(s: string): string {
    if s != [] && (s[0] == '+' || s[0] == '-') then s[1..] else s
  }

  /** The text `/^[-+]?[0-9]+$/` accepts, the form `isInt` allows by default. */
  predicate IsIntText(s: string) {
    var d := UnsignedPart(s);
    d != [] && forall i :: 0 <= i < |d| ==> IsDigitIn(d[i], 10)
  }

  /** The number an integer literal denotes, as `Number(s)` reads it. */
  function IntTextValue(s: string): int
    requires IsIntText(s)
  {
    var n := Numeral(UnsignedPart(s), 10);
    if s[0] == '-' then -(n as int) else n as int
  }

  /** `isInt({ min: lo, max: hi })`. */
  function IsIntBetween(lo: int, hi: int): string -> bool {
    (s: string) => IsIntText(s) && lo <= IntTextValue(s) <= hi
  }

  /** `isFloat({ min: lo })`. */
  function IsFloatAtLeast(k: Checkers, lo: real): string -> bool {
    (s: string) => k.floatValue(s).Some? && k.floatValue(s).value >= lo
  }

  // ----- The chains -----

  const ValidatorCategories: seq<string> :=
    ["shirts", "pants", "dresses", "jackets", "shoes", "accessories", "underwear", "sportswear", "formal", "casual"]

  const ValidatorGenders: seq<string> := ["men", "women", "unisex", "kids"]

  function UsernameChain(optional: bool): Chain {
    Chain("username", optional,
          [TrimStep,
           Check(LengthIn(2, 50), "Username must be between 2 and 50 characters"),
           Check(MatchesUsername, "Username can only contain letters, numbers, underscores, and hyphens")])
  }

  /** `isEmail()` then `normalizeEmail()`; the sanitizer runs after the only check, so it
      affects no error. */
  function EmailChain(k: Checkers, optional: bool): Chain {
    Chain("email", optional, [Check(k.isEmail, "Please provide a valid email")])
  }

  function PasswordChain(field: string, lengthMessage: string, patternMessage: string): Chain {
    Chain(field, false, [Check(LengthAtLeast(6), lengthMessage), Check(MatchesPasswordPattern, patternMessage)])
  }

  function PhoneChain(k: Checkers): Chain {
    Chain("phone", true, [Check(k.isMobilePhone, "Please provide a valid phone number")])
  }

  const AddressChain: Chain :=
    Chain("address", true, [TrimStep, Check(LengthAtMost(200), "Address must not exceed 200 characters")])

  /** `validateUserRegistration`. */
  function RegistrationChains(k: Checkers): seq<Chain> {
    [UsernameChain(false), EmailChain(k, false), RegistrationPasswordChain, PhoneChain(k), AddressChain]
  }

  const RegistrationPasswordChain: Chain :=
    PasswordChain("password", "Password must be at least 6 characters long",
                  "Password must contain at least one uppercase letter, one lowercase letter, and one number")

  /** `validateUserLogin`. */
  function LoginChains(k: Checkers): seq<Chain> {
    [EmailChain(k, false),
     Chain("password", false, [Check(NotEmpty, "Password is required")])]
  }

  /** `validateProfileUpdate`. */
  function ProfileChains(k: Checkers): seq<Chain> {
    [UsernameChain(true), EmailChain(k, true), PhoneChain(k), AddressChain]
  }

  /** `validatePasswordChange`. */
  const PasswordChangeChains: seq<Chain> :=
    [Chain("currentPassword", false, [Check(NotEmpty, "Current password is required")]),
     PasswordChain("newPassword", "New password must be at least 6 characters long",
                   "New password must contain at least one uppercase letter, one lowercase letter, and one number")]

  /** `validateProduct`. */
  function ProductChains(k: Checkers): seq<Chain> {
    [ProductNameChain, ProductDescriptionChain, ProductPriceChain(k), ProductDiscountChain(k),
     ProductCategoryChain, ProductBrandChain, ProductGenderChain, ProductSkuChain]
  }

  const ProductNameChain: Chain :=
    Chain("name", false, [TrimStep, Check(LengthIn(2, 100), "Product name must be between 2 and 100 characters")])
  const ProductDescriptionChain: Chain :=
    Chain("description", false, [TrimStep, Check(LengthIn(10, 1000), "Description must be between 10 and 1000 characters")])
  function ProductPriceChain(k: Checkers): Chain {
    Chain("price", false, [Check(IsFloatAtLeast(k, 0.0), "Price must be a positive number")])
  }
  function ProductDiscountChain(k: Checkers): Chain {
    Chain("discountPrice", true, [Check(IsFloatAtLeast(k, 0.0), "Discount price must be a positive number")])
  }
  const ProductCategoryChain: Chain :=
    Chain("category", false, [Check(IsIn(ValidatorCategories), "Please select a valid category")])
  const ProductBrandChain: Chain :=
    Chain("brand", false, [TrimStep, Check(LengthIn(1, 50), "Brand name is required and must not exceed 50 characters")])
  const ProductGenderChain: Chain :=
    Chain("gender", false, [Check(IsIn(ValidatorGenders), "Please select a valid gender category")])
  const ProductSkuChain: Chain :=
    Chain("sku", false, [TrimStep, Check(LengthIn(3, 50), "SKU must be between 3 and 50 characters")])

  /** `validateReview`. */
  const ReviewChains: seq<Chain> :=
    [Chain("rating", false, [Check(IsIntBetween(1, 5), "Rating must be between 1 and 5")]),
     Chain("comment", true, [TrimStep, Check(LengthAtMost(500), "Comment must not exceed 500 characters")])]

  /** `validateSearch`. */
  function SearchChains(k: Checkers): seq<Chain> {
    [SearchQueryChain, SearchCategoryChain, SearchGenderChain, SearchMinPriceChain(k), SearchMaxPriceChain(k)]
  }

  const SearchQueryChain: Chain :=
    Chain("query", true, [TrimStep, Check(LengthIn(1, 100), "Search query must be between 1 and 100 characters")])
  const SearchCategoryChain: Chain :=
    Chain("category", true, [Check(IsIn(ValidatorCategories), "Please select a valid category")])
  const SearchGenderChain: Chain :=
    Chain("gender", true, [Check(IsIn(ValidatorGenders), "Please select a valid gender")])
  function SearchMinPriceChain(k: Checkers): Chain {
    Chain("minPrice", true, [Check(IsFloatAtLeast(k, 0.0), "Minimum price must be a positive number")])
  }
  function SearchMaxPriceChain(k: Checkers): Chain {
    Chain("maxPrice", true, [Check(IsFloatAtLeast(k, 0.0), "Maximum price must be a positive number")])
  }

  // ----- What the chains accept -----

  /** The errors of a chain list are those of its first chain followed by the rest's. */
  lemma {:induction false} ErrorsCons(fields: Fields, c: Chain, rest: seq<Chain>)
    ensures Errors(fields, [c] + rest) == RunChain(fields, c) + Errors(fields, rest)
  {
    assert ([c] + rest)[1..] == rest;
  }

  lemma {:induction false} Errors2(fields: Fields, a: Chain, b: Chain)
    ensures Errors(fields, [a, b]) == RunChain(fields, a) + RunChain(fields, b)
  {
    assert [a, b] == [a] + [b];
    ErrorsCons(fields, b, []);
    ErrorsCons(fields, a, [b]);
  }

  lemma {:induction false} Errors4(fields: Fields, a: Chain, b: Chain, c: Chain, d: Chain)
    ensures Errors(fields, [a, b, c, d])
         == RunChain(fields, a) + RunChain(fields, b) + RunChain(fields, c) + RunChain(fields, d)
  {
    var cd := [c, d];
    var bcd := [b] + cd;
    assert [a, b, c, d] == [a] + bcd;
    Errors2(fields, c, d);
    ErrorsCons(fields, b, cd);
    ErrorsCons(fields, a, bcd);
    var ra, rb, rc, rd := RunChain(fields, a), RunChain(fields, b), RunChain(fields, c), RunChain(fields, d);
    assert ra + (rb + (rc + rd)) == ra + rb + rc + rd;
  }

  lemma {:induction false} Errors5(fields: Fields, a: Chain, b: Chain, c: Chain, d: Chain, e: Chain)
    ensures Errors(fields, [a, b, c, d, e])
         == RunChain(fields, a) + RunChain(fields, b) + RunChain(fields, c) + RunChain(fields, d)
            + RunChain(fields, e)
  {
    var rest := [b, c, d, e];
    assert [a, b, c, d, e] == [a] + rest;
    Errors4(fields, b, c, d, e);
    ErrorsCons(fields, a, rest);
    var ra, rb, rc, rd, re := RunChain(fields, a), RunChain(fields, b), RunChain(fields, c),
                              RunChain(fields, d), RunChain(fields, e);
    assert ra + (rb + rc + rd + re) == ra + rb + rc + rd + re;
  }

  /** Five chains let a request through exactly when each of them reports nothing. */
  lemma {:induction false} Gate5(fields: Fields, a: Chain, b: Chain, c: Chain, d: Chain, e: Chain)
    ensures Validate(fields, [a, b, c, d, e]) == Next <==>
      && RunChain(fields, a) == [] && RunChain(fields, b) == [] && RunChain(fields, c) == []
      && RunChain(fields, d) == [] && RunChain(fields, e) == []
  {
    Errors5(fields, a, b, c, d, e);
  }

  lemma {:induction false} Gate2(fields: Fields, a: Chain, b: Chain)
    ensures Validate(fields, [a, b]) == Next <==> RunChain(fields, a) == [] && RunChain(fields, b) == []
  {
    Errors2(fields, a, b);
  }

  lemma {:induction false} Gate4(fields: Fields, a: Chain, b: Chain, c: Chain, d: Chain)
    ensures Validate(fields, [a, b, c, d]) == Next <==>
      RunChain(fields, a) == [] && RunChain(fields, b) == [] && RunChain(fields, c) == [] && RunChain(fields, d) == []
  {
    Errors4(fields, a, b, c, d);
  }

  /** The errors of two chain lists run one after the other are the first list's followed
      by the second's. */
  lemma {:induction false} ErrorsAppend(fields: Fields, xs: seq<Chain>, ys: seq<Chain>)
    ensures Errors(fields, xs + ys) == Errors(fields, xs) + Errors(fields, ys)
  {
    if xs == [] {
      assert xs + ys == ys;
    } else {
      assert (xs + ys)[1..] == xs[1..] + ys;
      ErrorsAppend(fields, xs[1..], ys);
    }
  }

  lemma {:induction false} Errors8(fields: Fields, a: Chain, b: Chain, c: Chain, d: Chain, e: Chain, f: Chain, g: Chain, h: Chain)
    ensures Errors(fields, [a, b, c, d, e, f, g, h])
         == RunChain(fields, a) + RunChain(fields, b) + RunChain(fields, c) + RunChain(fields, d)
            + (RunChain(fields, e) + RunChain(fields, f) + RunChain(fields, g) + RunChain(fields, h))
  {
    var front, back := [a, b, c, d], [e, f, g, h];
    assert [a, b, c, d, e, f, g, h] == front + back;
    Errors4(fields, a, b, c, d);
    Errors4(fields, e, f, g, h);
    ErrorsAppend(fields, front, back);
  }

  /** A chain of one check passes exactly when the check holds of the value. */
  lemma {:induction false} PassCheck(field: string, v: string, test: string -> bool, m: string)
    ensures RunSteps(field, v, [Check(test, m)]) == [] <==> test(v)
  {
    assert [Check(test, m)][1..] == [];
  }

  /** `trim` then one check passes exactly when the check holds of the trimmed value. */
  lemma {:induction false} PassTrimCheck(field: string, v: string, test: string -> bool, m: string)
    ensures RunSteps(field, v, [TrimStep, Check(test, m)]) == [] <==> test(Trim(v))
  {
    assert [TrimStep, Check(test, m)][1..] == [Check(test, m)];
    PassCheck(field, Trim(v), test, m);
  }

  /** Two checks pass exactly when both hold, each reporting its own error otherwise. */
  lemma {:induction false} PassTwoChecks(field: string, v: string, t1: string -> bool, m1: string, t2: string -> bool, m2: string)
    ensures RunSteps(field, v, [Check(t1, m1), Check(t2, m2)]) == [] <==> t1(v) && t2(v)
  {
    assert [Check(t1, m1), Check(t2, m2)][1..] == [Check(t2, m2)];
    PassCheck(field, v, t2, m2);
  }

  /** The errors listed for a field are exactly those of its own chain, provided no other
      chain validates the same field. */
  lemma {:induction false} ErrorsForChain(fields: Fields, chains: seq<Chain>, k: nat)
    requires k < |chains| && Distinct(chains, ChainField)
    ensures ErrorsFor(Errors(fields, chains), chains[k].field) == RunChain(fields, chains[k])
  {
    var field := chains[k].field;
    var keep := (e: FieldError) => e.field == field;
    var head := RunChain(fields, chains[0]);
    FilterConcat(head, Errors(fields, chains[1..]), keep);
    assert forall i :: 1 <= i < |chains| ==> chains[1..][i - 1] == chains[i];
    if k == 0 {
      FilterAllKept(head, keep);
      ErrorsForAbsent(fields, chains[1..], field);
    } else {
      assert chains[0].field != field by { assert ChainField(chains[0]) != ChainField(chains[k]); }
      FilterNoneKept(head, keep);
      ErrorsForChain(fields, chains[1..], k - 1);
    }
  }

  /** A field no chain validates has no errors. */
  lemma {:induction false} ErrorsForAbsent(fields: Fields, chains: seq<Chain>, field: string)
    requires forall i :: 0 <= i < |chains| ==> chains[i].field != field
    ensures ErrorsFor(Errors(fields, chains), field) == []
  {
    if chains != [] {
      var keep := (e: FieldError) => e.field == field;
      FilterConcat(RunChain(fields, chains[0]), Errors(fields, chains[1..]), keep);
      assert forall i :: 1 <= i < |chains| ==> chains[1..][i - 1] == chains[i];
      ErrorsForAbsent(fields, chains[1..], field);
      FilterNoneKept(RunChain(fields, chains[0]), keep);
    }
  }

  /** A username passes when its trimmed form has 2 to 50 characters, each a letter, digit,
      `_` or `-`. */
  predicate UsernameOk(v: string) {
    var t := Trim(v);
    2 <= |t| <= 50 && forall i :: 0 <= i < |t| ==> IsUsernameChar(t[i])
  }

  lemma {:induction false} UsernameAccepted(v: string, optional: bool)
    ensures RunSteps("username", v, UsernameChain(optional).steps) == [] <==> UsernameOk(v)
  {
    var steps := UsernameChain(optional).steps;
    assert steps[1..] == [steps[1], steps[2]];
    PassTwoChecks("username", Trim(v), LengthIn(2, 50), steps[1].message, MatchesUsername, steps[2].message);
  }

  /** Whether a username passes depends only on its trimmed form, and a passing one has no
      `\s` character anywhere inside it. */
  lemma {:induction false} UsernameTrimInvariant(v: string)
    ensures UsernameOk(Trim(v)) == UsernameOk(v)
    ensures UsernameOk(v) ==> forall i :: 0 <= i < |Trim(v)| ==> !IsSpace(Trim(v)[i])
  {
    TrimIdempotent(v);
  }

  /** A password passes when it has at least six characters and a lower-case letter, an
      upper-case letter and a digit all occur before its first line terminator. */
  predicate PasswordOk(p: string) {
    |p| >= 6 && HasLower(FirstLine(p)) && HasUpper(FirstLine(p)) && HasDigit(FirstLine(p))
  }

  lemma {:induction false} PasswordAccepted(field: string, lengthMessage: string, patternMessage: string, p: string)
    ensures RunSteps(field, p, PasswordChain(field, lengthMessage, patternMessage).steps) == [] <==> PasswordOk(p)
  {
    PassTwoChecks(field, p, LengthAtLeast(6), lengthMessage, MatchesPasswordPattern, patternMessage);
  }

  /** For a password on one line, the rule is "at least six characters, with a lower-case
      letter, an upper-case letter and a digit somewhere". */
  lemma {:induction false} PasswordSingleLine(p: string)
    requires forall i :: 0 <= i < |p| ==> !IsLineTerminator(p[i])
    ensures PasswordOk(p) <==> |p| >= 6 && HasLower(p) && HasUpper(p) && HasDigit(p)
  {
    PrefixWhileIs(p, NotLineTerminator, |p|);
    assert FirstLine(p) == p;
  }

  /** The lookaheads stop at the first line break: only the letters and digits before it
      count, so a password whose upper-case letter or digit comes after a line break is
      refused even though the string holds one. */
  lemma {:induction false} PasswordLookaheadsStopAtLineBreak(first: string, c: char, rest: string)
    requires forall i :: 0 <= i < |first| ==> !IsLineTerminator(first[i])
    requires IsLineTerminator(c)
    ensures FirstLine(first + [c] + rest) == first
    ensures PasswordOk(first + [c] + rest)
            <==> |first| + 1 + |rest| >= 6 && HasLower(first) && HasUpper(first) && HasDigit(first)
  {
    var p := first + [c] + rest;
    assert forall i :: 0 <= i < |first| ==> p[i] == first[i];
    assert p[|first|] == c;
    PrefixWhileIs(p, NotLineTerminator, |first|);
    assert p[..|first|] == first;
  }

  /** An optional chain of `trim` and a maximum length passes when the field is absent or
      short enough once trimmed. */
  lemma {:induction false} OptionalTrimMaxAccepted(fields: Fields, field: string, hi: nat, m: string)
    ensures RunChain(fields, Chain(field, true, [TrimStep, Check(LengthAtMost(hi), m)])) == []
        <==> (field in fields ==> |Trim(fields[field])| <= hi)
  {
    PassTrimCheck(field, ValueOf(fields, field), LengthAtMost(hi), m);
  }

  /** An optional chain of one check passes when the field is absent or the check holds. */
  lemma {:induction false} OptionalCheckAccepted(fields: Fields, field: string, test: string -> bool, m: string)
    ensures RunChain(fields, Chain(field, true, [Check(test, m)])) == []
        <==> (field in fields ==> test(fields[field]))
  {
    PassCheck(field, ValueOf(fields, field), test, m);
  }

  /** A required chain of one check passes when the check holds of the value, the empty
      string for an absent field. */
  lemma {:induction false} RequiredCheckAccepted(fields: Fields, field: string, test: string -> bool, m: string)
    ensures RunChain(fields, Chain(field, false, [Check(test, m)])) == [] <==> test(ValueOf(fields, field))
  {
    PassCheck(field, ValueOf(fields, field), test, m);
  }

  /** An optional chain of `trim` and a length range passes when the field is absent or its
      trimmed value fits. */
  lemma {:induction false} OptionalTrimRangeAccepted(fields: Fields, field: string, lo: nat, hi: nat, m: string)
    ensures RunChain(fields, Chain(field, true, [TrimStep, Check(LengthIn(lo, hi), m)])) == []
        <==> (field in fields ==> lo <= |Trim(fields[field])| <= hi)
  {
    PassTrimCheck(field, ValueOf(fields, field), LengthIn(lo, hi), m);
  }

  /** A required chain of `trim` and a length range passes when the trimmed value fits. */
  lemma {:induction false} RequiredTrimRangeAccepted(fields: Fields, field: string, lo: nat, hi: nat, m: string)
    ensures RunChain(fields, Chain(field, false, [TrimStep, Check(LengthIn(lo, hi), m)])) == []
        <==> lo <= |Trim(ValueOf(fields, field))| <= hi
  {
    PassTrimCheck(field, ValueOf(fields, field), LengthIn(lo, hi), m);
  }

  /** `validateUserRegistration` passes exactly when the username and password rules hold,
      the email is valid, and a phone or address that is given is valid. */
  lemma {:induction false} RegistrationAccepted(fields: Fields, k: Checkers)
    ensures Validate(fields, RegistrationChains(k)) == Next <==>
      && UsernameOk(ValueOf(fields, "username"))
      && k.isEmail(ValueOf(fields, "email"))
      && PasswordOk(ValueOf(fields, "password"))
      && ("phone" in fields ==> k.isMobilePhone(fields["phone"]))
      && ("address" in fields ==> |Trim(fields["address"])| <= 200)
  {
    var a, b, c, d, e := UsernameChain(false), EmailChain(k, false), RegistrationPasswordChain, PhoneChain(k), AddressChain;
    UsernameAccepted(ValueOf(fields, "username"), false);
    RequiredCheckAccepted(fields, "email", k.isEmail, "Please provide a valid email");
    PasswordAccepted("password", "Password must be at least 6 characters long",
                     "Password must contain at least one uppercase letter, one lowercase letter, and one number",
                     ValueOf(fields, "password"));
    OptionalCheckAccepted(fields, "phone", k.isMobilePhone, "Please provide a valid phone number");
    OptionalTrimMaxAccepted(fields, "address", 200, "Address must not exceed 200 characters");
    Gate5(fields, a, b, c, d, e);
  }

  /** `validateUserLogin` passes exactly when the email is valid and a password is given. */
  lemma {:induction false} LoginAccepted(fields: Fields, k: Checkers)
    ensures Validate(fields, LoginChains(k)) == Next <==>
      k.isEmail(ValueOf(fields, "email")) && "password" in fields && fields["password"] != ""
  {
    RequiredCheckAccepted(fields, "email", k.isEmail, "Please provide a valid email");
    RequiredCheckAccepted(fields, "password", NotEmpty, "Password is required");
    Gate2(fields, EmailChain(k, false), Chain("password", false, [Check(NotEmpty, "Password is required")]));
  }

  /** On profile update every field is optional, and the rules of registration apply to the
      fields that are given. */
  lemma {:induction false} ProfileAccepted(fields: Fields, k: Checkers)
    ensures Validate(fields, ProfileChains(k)) == Next <==>
      && ("username" in fields ==> UsernameOk(fields["username"]))
      && ("email" in fields ==> k.isEmail(fields["email"]))
      && ("phone" in fields ==> k.isMobilePhone(fields["phone"]))
      && ("address" in fields ==> |Trim(fields["address"])| <= 200)
  {
    var a, b, c, d := UsernameChain(true), EmailChain(k, true), PhoneChain(k), AddressChain;
    assert RunChain(fields, a) == [] <==> ("username" in fields ==> UsernameOk(fields["username"])) by {
      UsernameAccepted(ValueOf(fields, "username"), true);
    }
    assert RunChain(fields, b) == [] <==> ("email" in fields ==> k.isEmail(fields["email"])) by {
      OptionalCheckAccepted(fields, "email", k.isEmail, "Please provide a valid email");
    }
    assert RunChain(fields, c) == [] <==> ("phone" in fields ==> k.isMobilePhone(fields["phone"])) by {
      OptionalCheckAccepted(fields, "phone", k.isMobilePhone, "Please provide a valid phone number");
    }
    assert RunChain(fields, d) == [] <==> ("address" in fields ==> |Trim(fields["address"])| <= 200) by {
      OptionalTrimMaxAccepted(fields, "address", 200, "Address must not exceed 200 characters");
    }
    Gate4(fields, a, b, c, d);
  }

  /** A username given on profile update gets exactly the errors registration would report
      for it, and an absent one gets none. */
  lemma {:induction false} ProfileUsernameSameRules(fields: Fields, k: Checkers)
    ensures ErrorsFor(Errors(fields, ProfileChains(k)), "username")
         == if "username" in fields then ErrorsFor(Errors(fields, RegistrationChains(k)), "username") else []
  {
    DistinctFieldNames(k);
    ErrorsForChain(fields, ProfileChains(k), 0);
    ErrorsForChain(fields, RegistrationChains(k), 0);
  }

  /** The field names of each chain list are pairwise different. */
  lemma {:induction false} DistinctFieldNames(k: Checkers)
    ensures Distinct(ProfileChains(k), ChainField)
    ensures Distinct(RegistrationChains(k), ChainField)
  {
    assert "username"[0] != "email"[0] && "username"[0] != "phone"[0] && "username"[0] != "address"[0];
    assert "email"[0] != "password"[0] && "email"[0] != "phone"[0] && "email"[0] != "address"[0];
    assert "password"[1] != "phone"[1] && "password"[0] != "address"[0] && "phone"[0] != "address"[0];
    assert "username"[0] != "password"[0];
  }

  /** `validatePasswordChange` passes exactly when a current password is given and the new
      password meets the registration password rule. */
  lemma {:induction false} PasswordChangeAccepted(fields: Fields)
    ensures Validate(fields, PasswordChangeChains) == Next <==>
      "currentPassword" in fields && fields["currentPassword"] != "" && PasswordOk(ValueOf(fields, "newPassword"))
  {
    RequiredCheckAccepted(fields, "currentPassword", NotEmpty, "Current password is required");
    PasswordAccepted("newPassword", "New password must be at least 6 characters long",
                     "New password must contain at least one uppercase letter, one lowercase letter, and one number",
                     ValueOf(fields, "newPassword"));
    Gate2(fields, PasswordChangeChains[0], PasswordChangeChains[1]);
  }

  /** A product passes when the trimmed name, description, brand and SKU lengths are within
      their bounds, the price (and a given discount price) is a number of at least zero, and
      category and gender are values the product schema allows. */
  lemma {:induction false} ProductAccepted(fields: Fields, k: Checkers)
    ensures Validate(fields, ProductChains(k)) == Next <==>
      && 2 <= |Trim(ValueOf(fields, "name"))| <= 100
      && 10 <= |Trim(ValueOf(fields, "description"))| <= 1000
      && IsFloatAtLeast(k, 0.0)(ValueOf(fields, "price"))
      && ("discountPrice" in fields ==> IsFloatAtLeast(k, 0.0)(fields["discountPrice"]))
      && ValueOf(fields, "category") in Products.Categories
      && 1 <= |Trim(ValueOf(fields, "brand"))| <= 50
      && ValueOf(fields, "gender") in Products.Genders
      && 3 <= |Trim(ValueOf(fields, "sku"))| <= 50
  {
    Errors8(fields, ProductNameChain, ProductDescriptionChain, ProductPriceChain(k), ProductDiscountChain(k),
            ProductCategoryChain, ProductBrandChain, ProductGenderChain, ProductSkuChain);
    assert RunChain(fields, ProductNameChain) == [] <==> 2 <= |Trim(ValueOf(fields, "name"))| <= 100 by {
      RequiredTrimRangeAccepted(fields, "name", 2, 100, "Product name must be between 2 and 100 characters");
    }
    assert RunChain(fields, ProductDescriptionChain) == [] <==> 10 <= |Trim(ValueOf(fields, "description"))| <= 1000 by {
      RequiredTrimRangeAccepted(fields, "description", 10, 1000, "Description must be between 10 and 1000 characters");
    }
    assert RunChain(fields, ProductPriceChain(k)) == [] <==> IsFloatAtLeast(k, 0.0)(ValueOf(fields, "price")) by {
      RequiredCheckAccepted(fields, "price", IsFloatAtLeast(k, 0.0), "Price must be a positive number");
    }
    assert RunChain(fields, ProductDiscountChain(k)) == []
        <==> ("discountPrice" in fields ==> IsFloatAtLeast(k, 0.0)(fields["discountPrice"])) by {
      OptionalCheckAccepted(fields, "discountPrice", IsFloatAtLeast(k, 0.0), "Discount price must be a positive number");
    }
    assert RunChain(fields, ProductCategoryChain) == [] <==> ValueOf(fields, "category") in Products.Categories by {
      RequiredCheckAccepted(fields, "category", IsIn(ValidatorCategories), "Please select a valid category");
    }
    assert RunChain(fields, ProductBrandChain) == [] <==> 1 <= |Trim(ValueOf(fields, "brand"))| <= 50 by {
      RequiredTrimRangeAccepted(fields, "brand", 1, 50, "Brand name is required and must not exceed 50 characters");
    }
    assert RunChain(fields, ProductGenderChain) == [] <==> ValueOf(fields, "gender") in Products.Genders by {
      RequiredCheckAccepted(fields, "gender", IsIn(ValidatorGenders), "Please select a valid gender category");
    }
    assert RunChain(fields, ProductSkuChain) == [] <==> 3 <= |Trim(ValueOf(fields, "sku"))| <= 50 by {
      RequiredTrimRangeAccepted(fields, "sku", 3, 50, "SKU must be between 3 and 50 characters");
    }
  }

  /** A review passes exactly when the rating is an integer literal from 1 to 5 and a given
      comment has at most 500 characters once trimmed; the rating the controller reads with
      `Number(rating)` is then one the review schema accepts. */
  lemma {:induction false} ReviewAccepted(fields: Fields)
    ensures Validate(fields, ReviewChains) == Next <==>
      && "rating" in fields && IsIntText(fields["rating"]) && 1 <= IntTextValue(fields["rating"]) <= 5
      && ("comment" in fields ==> |Trim(fields["comment"])| <= 500)
  {
    RequiredCheckAccepted(fields, "rating", IsIntBetween(1, 5), "Rating must be between 1 and 5");
    OptionalTrimMaxAccepted(fields, "comment", 500, "Comment must not exceed 500 characters");
    Gate2(fields, ReviewChains[0], ReviewChains[1]);
    assert !IsIntText("");
  }

  /** The search chains accept their fields only when absent or within their rules. */
  predicate SearchOk(fields: Fields, k: Checkers) {
    && ("query" in fields ==> 1 <= |Trim(fields["query"])| <= 100)
    && ("category" in fields ==> fields["category"] in Products.Categories)
    && ("gender" in fields ==> fields["gender"] in Products.Genders)
    && ("minPrice" in fields ==> IsFloatAtLeast(k, 0.0)(fields["minPrice"]))
    && ("maxPrice" in fields ==> IsFloatAtLeast(k, 0.0)(fields["maxPrice"]))
  }

  lemma {:induction false} SearchAccepted(fields: Fields, k: Checkers)
    ensures Validate(fields, SearchChains(k)) == Next <==> SearchOk(fields, k)
  {
    OptionalTrimRangeAccepted(fields, "query", 1, 100, "Search query must be between 1 and 100 characters");
    OptionalCheckAccepted(fields, "category", IsIn(ValidatorCategories), "Please select a valid category");
    OptionalCheckAccepted(fields, "gender", IsIn(ValidatorGenders), "Please select a valid gender");
    OptionalCheckAccepted(fields, "minPrice", IsFloatAtLeast(k, 0.0), "Minimum price must be a positive number");
    OptionalCheckAccepted(fields, "maxPrice", IsFloatAtLeast(k, 0.0), "Maximum price must be a positive number");
    Gate5(fields, SearchQueryChain, SearchCategoryChain, SearchGenderChain, SearchMinPriceChain(k), SearchMaxPriceChain(k));
  }

  /** `GET /api/products/search` as routed: `validateSearch` reads the body, which a GET
      request does not have, while `searchProducts` reads the query string. */
  function SearchGateAsWritten(body: Fields, query: Fields, k: Checkers): Gate {
    Validate(body, SearchChains(k))
  }

  /** The gate the search route evidently intends: the same chains over the query string. */
  function SearchGate(body: Fields, query: Fields, k: Checkers): (g: Gate)
    ensures g == Next <==> SearchOk(query, k)
  {
    SearchAccepted(query, k);
    Validate(query, SearchChains(k))
  }

  /** With the empty body of a GET request the search validator passes every query string,
      so a category outside the enumeration reaches the controller; the intended gate
      refuses it. */
  lemma {:induction false} SearchIgnoresQuery(query: Fields, k: Checkers)
    ensures SearchGateAsWritten(map[], query, k) == Next
    ensures "category" in query && query["category"] !in Products.Categories ==>
              SearchGate(map[], query, k).Rejected?
  {
    SearchAccepted(map[], k);
  }
}
