/** The checkout page (src/pages/Checkout.tsx): an empty-cart redirect, a
    five-field form whose inputs each replace one field, and a submission that
    either names the first empty field or marks the page as processing, clears
    the cart once and returns to the home page. */
module CheckoutPage {
  import opened Types
  import opened Text
  import CartPage

  /** The five inputs of the form. */
  datatype Field = Name | Email | Address | City | ZipCode

  /** The `name` attribute of each input, which is also its key in the form data. */
  function FieldKey(f: Field): string
  {
    match f
    case Name => "name"
    case Email => "email"
    case Address => "address"
    case City => "city"
    case ZipCode => "zipCode"
  }

  /** The order in which the submission checks the fields. */
  const RequiredFields: seq<Field> := [Name, Email, Address, City, ZipCode]

  /** Position of a field in `RequiredFields`. */
  function Rank(f: Field): (k: nat)
    ensures k < |RequiredFields| && RequiredFields[k] == f
  {
    match f
    case Name => 0
    case Email => 1
    case Address => 2
    case City => 3
    case ZipCode => 4
  }

  /** The form as the page first shows it. */
  const EmptyForm: CheckoutFormData := CheckoutFormData("", "", "", "", "")

  function FieldValue(form: CheckoutFormData, f: Field): string
  {
    match f
    case Name => form.name
    case Email => form.email
    case Address => form.address
    case City => form.city
    case ZipCode => form.zipCode
  }

  /** `{ ...prev, [name]: value }`: the form with one field replaced. */
  function WithField(form: CheckoutFormData, f: Field, value: string): (r: CheckoutFormData)
    ensures FieldValue(r, f) == value
    ensures forall g :: g != f ==> FieldValue(r, g) == FieldValue(form, g)
  {
    match f
    case Name => form.(name := value)
    case Email => form.(email := value)
    case Address => form.(address := value)
    case City => form.(city := value)
    case ZipCode => form.(zipCode := value)
  }

  /** Writing a field's own value back changes nothing, and of two writes to one
      field only the last one shows. */
  lemma WithFieldLaws(form: CheckoutFormData, f: Field, v: string, w: string)
    ensures WithField(form, f, FieldValue(form, f)) == form
    ensures WithField(WithField(form, f, v), f, w) == WithField(form, f, w)
  {
  }

  /** Index of the first field of `fields` whose value is empty, or `|fields|`
      when none is: the `for ... of requiredFields` loop with its early return. */
  function FirstEmpty(form: CheckoutFormData, fields: seq<Field>): (k: nat)
    ensures k <= |fields|
    ensures forall j :: 0 <= j < k ==> FieldValue(form, fields[j]) != ""
    ensures k < |fields| ==> FieldValue(form, fields[k]) == ""
  {
    if fields == [] then 0
    else if FieldValue(form, fields[0]) == "" then 0
    else 1 + FirstEmpty(form, fields[1..])
  }

  /** The field the submission complains about, if any. A field passes exactly
      when its string is not empty; nothing is trimmed. */
  function Validate(form: CheckoutFormData): Option<Field>
  {
    var k := FirstEmpty(form, RequiredFields);
    if k < |RequiredFields| then Some(RequiredFields[k]) else None
  }

  /** Validation reports field `f` exactly when `f` is empty and every field before
      it is filled in, and reports nothing exactly when all five are filled in. */
  lemma ValidateSpec(form: CheckoutFormData, f: Field)
    ensures Validate(form) == Some(f) <==>
      FieldValue(form, f) == "" && forall g :: Rank(g) < Rank(f) ==> FieldValue(form, g) != ""
    ensures Validate(form) == None <==> forall g :: FieldValue(form, g) != ""
  {
    var k := FirstEmpty(form, RequiredFields);
    assert forall j :: 0 <= j < |RequiredFields| ==> Rank(RequiredFields[j]) == j;
    if FieldValue(form, f) == "" && forall g :: Rank(g) < Rank(f) ==> FieldValue(form, g) != "" {
      assert k == Rank(f);
    }
    if Validate(form) == None {
      forall g ensures FieldValue(form, g) != "" {
        assert RequiredFields[Rank(g)] == g;
      }
    }
  }

  /** Validation stops at the first empty field: changing any later field does
      not change what is reported. */
  lemma ValidationIgnoresLaterFields(form: CheckoutFormData, other: CheckoutFormData, f: Field)
    requires Validate(form) == Some(f)
    requires forall g :: Rank(g) <= Rank(f) ==> FieldValue(other, g) == FieldValue(form, g)
    ensures Validate(other) == Some(f)
  {
    ValidateSpec(form, f);
    ValidateSpec(other, f);
  }

  /** A form of blanks passes: a space is not an empty string. */
  lemma WhitespacePasses()
    ensures Validate(CheckoutFormData(" ", " ", " ", " ", " ")) == None
  {
    ValidateSpec(CheckoutFormData(" ", " ", " ", " ", " "), Name);
  }

  /** "Please fill in your <label>.", the label being the field's key turned
      into lower-case words. */
  function MissingFieldMessage(f: Field): string
  {
    "Please fill in your " + Humanize(FieldKey(f)) + "."
  }

  /** The five messages spelled out: only `zipCode` is rewritten, as "zip code". */
  lemma MissingFieldMessages(f: Field)
    ensures MissingFieldMessage(f) == "Please fill in your " + (if f == ZipCode then "zip code" else FieldKey(f)) + "."
  {
    HumanizeIsWordsOf(FieldKey(f));
    if f == ZipCode {
      ZipCodeWords();
    } else {
      WordsOfLowerIsIdentity(FieldKey(f));
    }
  }

  /** The one key with an upper-case letter gets a space before it. */
  lemma ZipCodeWords()
    ensures WordsOf("zipCode") == "zip code"
  {
    assert "zipCode" == "zip" + ['C'] + "ode";
    CamelWords("zip", 'C', "ode");
  }

  /** Two lower-case words joined by one capital become the words with a space. */
  lemma CamelWords(a: string, c: char, b: string)
    requires forall i :: 0 <= i < |a| ==> !IsUpper(a[i])
    requires forall i :: 0 <= i < |b| ==> !IsUpper(b[i])
    requires IsUpper(c)
    ensures WordsOf(a + [c] + b) == a + [' ', LowerChar(c)] + b
  {
    var w := [' ', LowerChar(c)];
    assert [c][1..] == [];
    assert WordsOf([c]) == w;
    WordsOfAppend(a, [c]);
    WordsOfLowerIsIdentity(a);
    assert WordsOf(a + [c]) == a + w;
    WordsOfAppend(a + [c], b);
    WordsOfLowerIsIdentity(b);
  }

  /** Each field has a message of its own, so the message tells which field is
      missing. */
  lemma MissingFieldMessageNamesField(f: Field, g: Field)
    ensures MissingFieldMessage(f) == MissingFieldMessage(g) <==> f == g
  {
    MissingFieldMessages(f);
    MissingFieldMessages(g);
    var lf := if f == ZipCode then "zip code" else FieldKey(f);
    var lg := if g == ZipCode then "zip code" else FieldKey(g);
    MessageCancels(lf, lg);
  }

  /** Two messages are equal only when the labels inside them are. */
  lemma MessageCancels(x: string, y: string)
    ensures "Please fill in your " + x + "." == "Please fill in your " + y + "." ==> x == y
  {
    var p := "Please fill in your ";
    if p + x + "." == p + y + "." {
      assert x == (p + x + ".")[|p|..|p| + |x|];
      assert y == (p + y + ".")[|p|..|p| + |y|];
    }
  }

  function ErrorToast(f: Field): Effect
  {
    Toast("Error", MissingFieldMessage(f), true)
  }

  /** What a successful submission issues after the processing delay: the
      confirmation, one `clearCart()`, then `navigate('/', { replace: true })`. */
  const SuccessEffects: seq<Effect> := [
    Toast("Order Confirmed!", "Thank you for your purchase. You will receive a confirmation email shortly.", false),
    ClearCart,
    Navigate("/", true)
  ]

  /** The processing flag and the effects after one submission. */
  datatype Outcome = Outcome(processing: bool, effects: seq<Effect>)

  function Submit(form: CheckoutFormData, processing: bool): Outcome
  {
    match Validate(form)
    case Some(f) => Outcome(processing, [ErrorToast(f)])
    case None => Outcome(true, SuccessEffects)
  }

  /** The first empty field, at position `k`, is the one the submission rejects. */
  lemma SubmitRejects(form: CheckoutFormData, processing: bool, k: nat)
    requires k < |RequiredFields| && FieldValue(form, RequiredFields[k]) == ""
    requires k <= FirstEmpty(form, RequiredFields)
    ensures Submit(form, processing) == Outcome(processing, [ErrorToast(RequiredFields[k])])
  {
    assert FirstEmpty(form, RequiredFields) == k;
    assert Validate(form) == Some(RequiredFields[k]);
  }

  /** With no field empty the submission is accepted. */
  lemma SubmitAccepts(form: CheckoutFormData, processing: bool)
    requires FirstEmpty(form, RequiredFields) >= |RequiredFields|
    ensures Submit(form, processing) == Outcome(true, SuccessEffects)
  {
  }

  /** A rejected submission only shows an error naming the field and leaves the
      flag as it was; an accepted one sets the flag and clears the cart exactly
      once, then navigates home replacing the history entry, and touches nothing
      else in the cart. */
  lemma SubmitProtocol(form: CheckoutFormData, processing: bool)
    ensures var o := Submit(form, processing);
      Occurrences(o.effects, ClearCart) == (if Validate(form).None? then 1 else 0) &&
      AddCount(o.effects) == 0 &&
      (Validate(form).Some? ==>
        o.processing == processing && o.effects == [ErrorToast(Validate(form).value)]) &&
      (Validate(form).None? ==>
        o.processing && o.effects[|o.effects| - 2..] == [ClearCart, Navigate("/", true)]) &&
      ClearsLeadHome(o.effects)
  {
    var o := Submit(form, processing);
    match Validate(form)
    case Some(f) =>
      OccurrencesSingle(ErrorToast(f), ClearCart);
    case None =>
      OccurrencesAppend(SuccessEffects[..1], SuccessEffects[1..], ClearCart);
      OccurrencesSingle(SuccessEffects[0], ClearCart);
      OccurrencesAppend([ClearCart], [Navigate("/", true)], ClearCart);
      OccurrencesSingle(ClearCart, ClearCart);
      OccurrencesSingle(Navigate("/", true), ClearCart);
      assert SuccessEffects[1..] == [ClearCart] + [Navigate("/", true)];
      assert SuccessEffects == SuccessEffects[..1] + SuccessEffects[1..];
  }

  /** Every `clearCart()` in the log is immediately followed by the navigation
      home that replaces the history entry. */
  predicate ClearsLeadHome(log: seq<Effect>)
  {
    forall i :: 0 <= i < |log| && log[i] == ClearCart ==>
      i + 1 < |log| && log[i + 1] == Navigate("/", true)
  }

  /** Two logs in which every clear leads home still have that property once
      joined: no clear is left last in the first one. */
  lemma ClearsLeadHomeAppend(a: seq<Effect>, b: seq<Effect>)
    requires ClearsLeadHome(a) && ClearsLeadHome(b)
    ensures ClearsLeadHome(a + b)
  {
    forall i | 0 <= i < |a + b| && (a + b)[i] == ClearCart
      ensures i + 1 < |a + b| && (a + b)[i + 1] == Navigate("/", true)
    {
      if i < |a| {
        assert a[i] == ClearCart;
      } else {
        assert b[i - |a|] == ClearCart;
      }
    }
  }

  /** The page shows either nothing (it has sent the browser to the cart) or the
      form, whose submit button is disabled while processing. */
  datatype CheckoutView =
    | RedirectedToCart
    | Form(form: CheckoutFormData, submitDisabled: bool, submitLabel: string)

  function View(cart: CartState, form: CheckoutFormData, processing: bool): CheckoutView
  {
    if |cart.items| == 0 then RedirectedToCart
    else Form(form, processing, if processing then "Processing..." else "Confirm Purchase")
  }

  /** The checkout form is never shown for an empty cart, and the page redirects
      exactly when the cart page shows its empty-cart branch. */
  lemma CheckoutGateMatchesCart(cart: CartState, form: CheckoutFormData, processing: bool)
    ensures View(cart, form, processing).RedirectedToCart? <==> CartPage.Render(cart).EmptyCart?
    ensures View(cart, form, processing).Form? ==> |cart.items| > 0
    ensures View(cart, form, processing).Form? ==> (View(cart, form, processing).submitDisabled <==> processing)
  {
  }

  /** Following the cart's checkout button always finds the form, ready to be
      confirmed; without items there is no button, and checkout would redirect. */
  lemma ProceedOpensForm(cart: CartState, form: CheckoutFormData)
    ensures CartPage.ProceedPress(CartPage.Render(cart)).Some? ==>
      View(cart, form, false) == Form(form, false, "Confirm Purchase")
    ensures CartPage.ProceedPress(CartPage.Render(cart)).None? ==>
      View(cart, form, false).RedirectedToCart?
  {
  }

  /** The page's state: the form, the processing flag and the effects issued so
      far. The flag is never cleared; a successful submission leaves the page. */
  class Checkout {
    var formData: CheckoutFormData
    var isProcessing: bool
    var log: seq<Effect>

    /** The cart has been cleared once if the page is processing, never otherwise,
        and each clear is immediately followed by the navigation home. */
    ghost predicate Valid()
      reads this
    {
      Occurrences(log, ClearCart) == (if isProcessing then 1 else 0) &&
      Occurrences(log, Navigate("/", true)) == Occurrences(log, ClearCart) &&
      ClearsLeadHome(log)
    }

    constructor ()
      ensures Valid()
      ensures formData == EmptyForm && !isProcessing && log == []
    {
      formData := EmptyForm;
      isProcessing := false;
      log := [];
    }

    /** Rendering: with no items the page calls `navigate('/cart')` and shows no
        form. */
    method Render(cart: CartState) returns (view: CheckoutView)
      requires Valid()
      modifies this`log
      ensures Valid()
      ensures view == View(cart, formData, isProcessing)
      ensures log == old(log) + (if |cart.items| == 0 then [Navigate("/cart", false)] else [])
    {
      view := View(cart, formData, isProcessing);
      if |cart.items| == 0 {
        OccurrencesAppend(log, [Navigate("/cart", false)], ClearCart);
        OccurrencesAppend(log, [Navigate("/cart", false)], Navigate("/", true));
        OccurrencesSingle(Navigate("/cart", false), ClearCart);
        OccurrencesSingle(Navigate("/cart", false), Navigate("/", true));
        ClearsLeadHomeAppend(log, [Navigate("/cart", false)]);
        log := log + [Navigate("/cart", false)];
      }
    }

    /** `handleInputChange`: the edited field takes the new value, the other four
        keep theirs. */
    method HandleInputChange(f: Field, value: string)
      modifies this`formData
      ensures formData == WithField(old(formData), f, value)
      ensures FieldValue(formData, f) == value
      ensures forall g :: g != f ==> FieldValue(formData, g) == FieldValue(old(formData), g)
    {
      formData := WithField(formData, f, value);
    }

    /** `handleSubmit`: check the fields in order and stop at the first empty one;
        if all are filled in, set the flag, then (after the delay, taken as one
        step) confirm, clear the cart and go home. */
    method HandleSubmit()
      modifies this`isProcessing, this`log
      ensures isProcessing == Submit(formData, old(isProcessing)).processing
      ensures log == old(log) + Submit(formData, old(isProcessing)).effects
    {
      ghost var k := FirstEmpty(formData, RequiredFields);
      var i := 0;
      while i < |RequiredFields|
        invariant 0 <= i <= k
        invariant log == old(log) && isProcessing == old(isProcessing)
      {
        var field := RequiredFields[i];
        if FieldValue(formData, field) == "" {
          SubmitRejects(formData, isProcessing, i);
          log := log + [ErrorToast(field)];
          return;
        }
        i := i + 1;
      }
      SubmitAccepts(formData, isProcessing);
      isProcessing := true;
      log := log + SuccessEffects;
    }

    /** The submit button: disabled while processing, so a second press during
        the delay issues nothing and the cart is cleared at most once. */
    method PressConfirm()
      requires Valid()
      modifies this`isProcessing, this`log
      ensures Valid()
      ensures Occurrences(log, ClearCart) <= 1
      ensures old(isProcessing) ==> isProcessing && log == old(log)
      ensures !old(isProcessing) ==>
        isProcessing == Submit(formData, false).processing &&
        log == old(log) + Submit(formData, false).effects
    {
      if !isProcessing {
        ghost var before := log;
        HandleSubmit();
        SubmitProtocol(formData, false);
        OccurrencesAppend(before, Submit(formData, false).effects, ClearCart);
        OccurrencesAppend(before, Submit(formData, false).effects, Navigate("/", true));
        NavigateHomeCount(formData);
        ClearsLeadHomeAppend(before, Submit(formData, false).effects);
      }
    }
  }

  /** One submission navigates home exactly as often as it clears the cart. */
  lemma NavigateHomeCount(form: CheckoutFormData)
    ensures Occurrences(Submit(form, false).effects, Navigate("/", true)) ==
            Occurrences(Submit(form, false).effects, ClearCart)
  {
    match Validate(form)
    case Some(f) =>
      OccurrencesSingle(ErrorToast(f), ClearCart);
      OccurrencesSingle(ErrorToast(f), Navigate("/", true));
    case None =>
      SubmitProtocol(form, false);
      var s := SuccessEffects;
      assert s == [s[0]] + [s[1]] + [s[2]];
      OccurrencesAppend([s[0]] + [s[1]], [s[2]], Navigate("/", true));
      OccurrencesAppend([s[0]], [s[1]], Navigate("/", true));
      OccurrencesSingle(s[0], Navigate("/", true));
      OccurrencesSingle(s[1], Navigate("/", true));
      OccurrencesSingle(s[2], Navigate("/", true));
  }
}
