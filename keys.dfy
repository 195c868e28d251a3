/** Parameter names of the gateway's form-encoded requests.

    The encoders write three shapes of key: a fixed name (`reference`), a name followed by a
    1-based decimal index (`itemId3`), and a name, an index and the sub-index `_1`
    (`paymentMethodConfigKey2_1`). Caller-supplied pass-through parameters add a fourth
    shape, an arbitrary string. Keys are kept structured here and rendered to strings by
    `Render`; the lemmas at the end show that two different keys of the first three shapes
    never render to the same string, so the encoder's own sections cannot overwrite each
    other. */
module Keys {

  datatype Key =
    | Named(name: string)
    | Indexed(prefix: string, index: nat)
    | SubIndexed(prefix: string, index: nat)   // rendered with the sub-index suffix "_1"
    | Raw(text: string)                        // a caller's pass-through parameter name

  /** The part of a request a key belongs to. */
  datatype Section =
    | Reference | Sender | SenderAddress | Currency | Items | PreApproval | Review
    | PreApprovalCode | ExtraAmount | Shipping | MaxAge | MaxUses | Redirect | Notification
    | MetaData | PaymentMethodConfig | AcceptedPaymentMethods | PassThrough | Unclaimed

  /** The section a fixed name belongs to; every other name is unclaimed. The names are
      grouped by length first so that the verifier, classifying a name, compares it with the
      few literals of its length instead of all of them; the grouping has no other meaning. */
  function SectionOfName(n: string): Section {
    match |n|
    case 6 => if n == "maxAge" then MaxAge else Unclaimed
    case 7 => if n == "maxUses" then MaxUses else Unclaimed
    case 8 => if n == "currency" then Currency else Unclaimed
    case 9 =>
      (match n
       case "reference" => Reference
       case "senderCPF" => Sender
       case "reviewUrl" => Review
       case _ => Unclaimed)
    case 10 =>
      (match n
       case "senderName" => Sender
       case "senderCNPJ" => Sender
       case _ => Unclaimed)
    case 11 =>
      (match n
       case "senderEmail" => Sender
       case "senderPhone" => Sender
       case "extraAmount" => ExtraAmount
       case "redirectURL" => Redirect
       case _ => Unclaimed)
    case 12 =>
      (match n
       case "shippingType" => Shipping
       case "shippingCost" => Shipping
       case _ => Unclaimed)
    case 14 => if n == "senderAreaCode" then Sender else Unclaimed
    case 15 =>
      (match n
       case "preApprovalName" => PreApproval
       case "preApprovalCode" => PreApprovalCode
       case "notificationURL" => Notification
       case _ => Unclaimed)
    case 17 =>
      (match n
       case "senderAddressCity" => SenderAddress
       case "preApprovalCharge" => PreApproval
       case "preApprovalPeriod" => PreApproval
       case _ => Unclaimed)
    case 18 =>
      (match n
       case "senderAddressState" => SenderAddress
       case "preApprovalDetails" => PreApproval
       case _ => Unclaimed)
    case 19 =>
      (match n
       case "senderAddressNumber" => SenderAddress
       case "senderAddressStreet" => SenderAddress
       case "shippingAddressCity" => Shipping
       case _ => Unclaimed)
    case 20 =>
      (match n
       case "senderAddressCountry" => SenderAddress
       case "preApprovalFinalDate" => PreApproval
       case "preApprovalDayOfYear" => PreApproval
       case "preApprovalDayOfWeek" => PreApproval
       case "shippingAddressState" => Shipping
       case _ => Unclaimed)
    case 21 =>
      (match n
       case "senderAddressDistrict" => SenderAddress
       case "preApprovalDayOfMonth" => PreApproval
       case "shippingAddressStreet" => Shipping
       case "shippingAddressNumber" => Shipping
       case _ => Unclaimed)
    case 22 =>
      (match n
       case "preApprovalInitialDate" => PreApproval
       case "shippingAddressCountry" => Shipping
       case _ => Unclaimed)
    case 23 =>
      (match n
       case "senderAddressPostalCode" => SenderAddress
       case "senderAddressComplement" => SenderAddress
       case "shippingAddressDistrict" => Shipping
       case "acceptPaymentMethodName" => AcceptedPaymentMethods
       case _ => Unclaimed)
    case 24 =>
      (match n
       case "acceptPaymentMethodGroup" => AcceptedPaymentMethods
       case "excludePaymentMethodName" => AcceptedPaymentMethods
       case _ => Unclaimed)
    case 25 =>
      (match n
       case "preApprovalMaxTotalAmount" => PreApproval
       case "shippingAddressComplement" => Shipping
       case "shippingAddressPostalCode" => Shipping
       case "excludePaymentMethodGroup" => AcceptedPaymentMethods
       case _ => Unclaimed)
    case 27 => if n == "preApprovalAmountPerPayment" then PreApproval else Unclaimed
    case 29 => if n == "preApprovalMaxAmountPerPeriod" then PreApproval else Unclaimed
    case 31 => if n == "preApprovalMaxPaymentsPerPeriod" then PreApproval else Unclaimed
    case _ => Unclaimed
  }

  /** The section an index prefix belongs to, grouped by length as in `SectionOfName`. */
  function SectionOfPrefix(p: string): Section {
    match |p|
    case 6 => if p == "itemId" then Items else Unclaimed
    case 10 =>
      (match p
       case "itemAmount" => Items
       case "itemWeight" => Items
       case _ => Unclaimed)
    case 12 => if p == "itemQuantity" then Items else Unclaimed
    case 15 =>
      (match p
       case "itemDescription" => Items
       case "metadataItemKey" => MetaData
       case _ => Unclaimed)
    case 16 => if p == "itemShippingCost" then Items else Unclaimed
    case 17 =>
      (match p
       case "metadataItemValue" => MetaData
       case "metadataItemGroup" => MetaData
       case _ => Unclaimed)
    case 18 => if p == "paymentMethodGroup" then PaymentMethodConfig else Unclaimed
    case _ => Unclaimed
  }

  function SectionOf(k: Key): Section {
    match k
    case Named(n) => SectionOfName(n)
    case Indexed(p, _) => SectionOfPrefix(p)
    case SubIndexed(p, _) =>
      if p == "paymentMethodConfigKey" || p == "paymentMethodConfigValue" then PaymentMethodConfig
      else Unclaimed
    case Raw(_) => PassThrough
  }

  /** A key one of the encoder's own sections writes (not a pass-through, not unknown). */
  predicate Owned(k: Key) {
    SectionOf(k) != PassThrough && SectionOf(k) != Unclaimed
  }

  predicate IsDigit(c: char) { '0' <= c <= '9' }
  predicate IsLetter(c: char) { 'a' <= c <= 'z' || 'A' <= c <= 'Z' }
  predicate Digits(s: string) { forall i | 0 <= i < |s| :: IsDigit(s[i]) }
  /** No character of `s` is a letter. */
  predicate NoLetters(s: string) { forall i | 0 <= i < |s| :: !IsLetter(s[i]) }
  /** Every name and prefix the encoders use ends in a letter. */
  predicate EndsInLetter(s: string) { |s| > 0 && IsLetter(s[|s| - 1]) }

  /** Decimal rendering of an index counter, as `int.ToString()` gives it for n >= 0. */
  function NatToString(n: nat): (s: string)
    ensures |s| >= 1 && Digits(s)
    ensures |s| == 1 <==> n < 10
  {
    if n < 10 then ["0123456789"[n]]
    else NatToString(n / 10) + ["0123456789"[n % 10]]
  }

  function Render(k: Key): string {
    match k
    case Named(n) => n
    case Indexed(p, i) => p + NatToString(i)
    case SubIndexed(p, i) => p + NatToString(i) + "_1"
    case Raw(t) => t
  }

  /** Different indices render differently. */
  lemma {:induction false} NatToStringInjective(a: nat, b: nat)
    requires NatToString(a) == NatToString(b)
    ensures a == b
  {
    var sa, sb := NatToString(a), NatToString(b);
    if a >= 10 && b >= 10 {
      assert sa[|sa| - 1] == "0123456789"[a % 10];
      assert sb[|sb| - 1] == "0123456789"[b % 10];
      assert NatToString(a / 10) == sa[..|sa| - 1] == sb[..|sb| - 1] == NatToString(b / 10);
      NatToStringInjective(a / 10, b / 10);
    }
  }

  lemma NameEndings(n: string)
    requires SectionOfName(n) != Unclaimed
    ensures EndsInLetter(n)
  {
    if |n| <= 12 {
      NameEndingsUpTo12(n);
    } else if |n| <= 19 {
      NameEndingsUpTo19(n);
    } else if |n| <= 21 {
      NameEndingsUpTo21(n);
    } else {
      NameEndingsLong(n);
    }
  }

  lemma NameEndingsUpTo12(n: string)
    requires SectionOfName(n) != Unclaimed && |n| <= 12
    ensures EndsInLetter(n)
  {
  }

  lemma NameEndingsUpTo19(n: string)
    requires SectionOfName(n) != Unclaimed && 12 < |n| <= 19
    ensures EndsInLetter(n)
  {
  }

  lemma NameEndingsUpTo21(n: string)
    requires SectionOfName(n) != Unclaimed && 19 < |n| <= 21
    ensures EndsInLetter(n)
  {
  }

  lemma NameEndingsLong(n: string)
    requires SectionOfName(n) != Unclaimed && 21 < |n|
    ensures EndsInLetter(n)
  {
  }

  lemma PrefixEndings(p: string)
    requires SectionOfPrefix(p) != Unclaimed
    ensures EndsInLetter(p)
  {
  }

  /** The encoders' names and prefixes all end in a letter. */
  lemma OwnedKeyEndings(k: Key)
    requires Owned(k)
    ensures LetterEnded(k)
  {
    match k
    case Named(n) => NameEndings(n);
    case Indexed(p, _) => PrefixEndings(p);
    case SubIndexed(p, _) =>
  }

  /** The shape of every owned key: its name or prefix ends in a letter. */
  predicate LetterEnded(k: Key) {
    match k
    case Named(n) => EndsInLetter(n)
    case Indexed(p, _) => EndsInLetter(p)
    case SubIndexed(p, _) => EndsInLetter(p)
    case Raw(_) => false
  }

  /** The text after a counter: nothing for an indexed key, the sub-index for a sub-indexed one. */
  lemma CounterTextNoLetters(i: nat)
    ensures NoLetters(NatToString(i)) && NoLetters(NatToString(i) + "_1")
  {
    var s := NatToString(i);
    assert forall j | 0 <= j < |s + "_1"| :: (s + "_1")[j] == if j < |s| then s[j] else "_1"[j - |s|];
  }

  lemma LongerPrefixDiffers(p: string, x: string, q: string, y: string)
    requires EndsInLetter(q) && |p| < |q| && NoLetters(x)
    requires |p| + |x| == |q| + |y|
    ensures p + x != q + y
  {
    assert (p + x)[|q| - 1] == x[|q| - 1 - |p|];
    assert (q + y)[|q| - 1] == q[|q| - 1];
  }

  /** A prefix ending in a letter, followed by text without letters, is determined by the
      string. */
  lemma PrefixDetermined(p: string, x: string, q: string, y: string)
    requires EndsInLetter(p) && EndsInLetter(q) && NoLetters(x) && NoLetters(y)
    requires p + x == q + y
    ensures p == q && x == y
  {
    if |p| < |q| {
      LongerPrefixDiffers(p, x, q, y);
    } else if |q| < |p| {
      LongerPrefixDiffers(q, y, p, x);
    } else {
      assert p == (p + x)[..|p|] && q == (q + y)[..|q|];
      assert x == (p + x)[|p|..] && y == (q + y)[|q|..];
    }
  }

  /** A name ending in a letter is no prefix followed by a non-empty counter text. */
  lemma NameNotIndexed(n: string, p: string, x: string)
    requires EndsInLetter(n) && |x| > 0 && NoLetters(x)
    ensures n != p + x
  {
    assert (p + x)[|p + x| - 1] == x[|x| - 1];
  }

  lemma ShapedRenderInjective(a: Key, b: Key)
    requires LetterEnded(a) && LetterEnded(b)
    requires Render(a) == Render(b)
    ensures a == b
  {
    match a
    case Named(n) => NamedRenderInjective(n, b);
    case Indexed(p, i) => IndexedRenderInjective(p, i, b);
    case SubIndexed(p, i) => SubIndexedRenderInjective(p, i, b);
  }

  lemma NamedRenderInjective(n: string, b: Key)
    requires EndsInLetter(n) && LetterEnded(b)
    requires n == Render(b)
    ensures Named(n) == b
  {
    match b {
      case Named(_) =>
      case Indexed(q, j) =>
        CounterTextNoLetters(j);
        NameNotIndexed(n, q, NatToString(j));
      case SubIndexed(q, j) =>
        CounterTextNoLetters(j);
        NameNotIndexed(n, q, NatToString(j) + "_1");
    }
  }

  lemma IndexedRenderInjective(p: string, i: nat, b: Key)
    requires EndsInLetter(p) && LetterEnded(b)
    requires p + NatToString(i) == Render(b)
    ensures Indexed(p, i) == b
  {
    CounterTextNoLetters(i);
    match b {
      case Named(m) => NameNotIndexed(m, p, NatToString(i));
      case Indexed(q, j) =>
        CounterTextNoLetters(j);
        PrefixDetermined(p, NatToString(i), q, NatToString(j));
        NatToStringInjective(i, j);
      case SubIndexed(q, j) =>
        CounterTextNoLetters(j);
        var si, sj := NatToString(i), NatToString(j) + "_1";
        assert Render(b) == q + sj && sj[|sj| - 2] == '_';
        PrefixDetermined(p, si, q, sj);
    }
  }

  lemma SubIndexedRenderInjective(p: string, i: nat, b: Key)
    requires EndsInLetter(p) && LetterEnded(b)
    requires p + NatToString(i) + "_1" == Render(b)
    ensures SubIndexed(p, i) == b
  {
    CounterTextNoLetters(i);
    var si := NatToString(i) + "_1";
    assert p + NatToString(i) + "_1" == p + si;
    match b {
      case Named(m) =>
        NameNotIndexed(m, p, si);
      case Indexed(q, j) =>
        CounterTextNoLetters(j);
        var sj := NatToString(j);
        assert si[|si| - 2] == '_';
        PrefixDetermined(p, si, q, sj);
      case SubIndexed(q, j) =>
        CounterTextNoLetters(j);
        var sj := NatToString(j) + "_1";
        assert Render(b) == q + sj;
        PrefixDetermined(p, si, q, sj);
        assert NatToString(i) == si[..|si| - 2] == sj[..|sj| - 2] == NatToString(j);
        NatToStringInjective(i, j);
    }
  }

  /** The encoders' own keys never collide: rendering is injective on owned keys. */
  lemma RenderInjective(a: Key, b: Key)
    requires Owned(a) && Owned(b)
    requires Render(a) == Render(b)
    ensures a == b
  {
    OwnedKeyEndings(a);
    OwnedKeyEndings(b);
    ShapedRenderInjective(a, b);
  }
}
