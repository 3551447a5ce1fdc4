/** `convertPrices`: every price container of the page that does not yet hold
    an annotation and whose text reads as a number gets exactly one annotation
    appended, holding the converted amount. */
module PriceScan {
  import opened Wrappers
  import opened Rates
  import opened PriceText

  /** The class that marks a price container on the page. */
  const ContainerClass := "classified-price-container"
  /** The class of the annotation span the scan appends. */
  const AnnotationClass := "usd-price"

  /** The converted amount, kept as the expression the script evaluates: the
      price read from the page times or over the rate. */
  datatype Amount = Times(lira: Numeral, rate: Rate) | Over(lira: Numeral, rate: Rate)

  /** The exact value of an amount; the script rounds it with `toFixed(2)`. */
  function AmountValue(a: Amount): real
    requires WellFormed(a.lira)
  {
    match a
    case Times(n, r) => Value(n) * r
    case Over(n, r) => Value(n) / r
  }

  /** The text of an annotation: `prefix`, the amount with two decimals, a space
      and `currency`. The two-decimal formatting itself is not modelled. */
  datatype Label = Label(prefix: string, amount: Amount, currency: string)

  /** The conversion each content script applies to a price in lira. */
  datatype Conversion =
    | MultiplyToUsd(rate: Rate)                        // content.js: lira * rate, "$… USD"
    | DivideToSelected(rate: Rate, currency: string)   // archived variant: lira / rate, "… <currency>"

  function LabelFor(conv: Conversion, lira: Numeral): Label {
    match conv
    case MultiplyToUsd(r) => Label("$", Times(lira, r), "USD")
    case DivideToSelected(r, currency) => Label("", Over(lira, r), currency)
  }

  /** A price container: its visible text, whether an element of the annotation
      class already sits inside it, and the annotations appended to it. */
  datatype Container = Container(text: string, hasAnnotation: bool, annotations: seq<Label>)

  /** A container that was given an annotation knows it holds one. */
  predicate Consistent(c: Container) {
    |c.annotations| > 0 ==> c.hasAnnotation
  }

  /** The price a container shows, or `None` when `parseFloat` gives `NaN`. */
  function AmountOf(c: Container): Option<Numeral> {
    ParseFloat(Sanitize(c.text))
  }

  /** What one pass of the scan does to one container. */
  function ConvertOne(c: Container, conv: Conversion): Container {
    if c.hasAnnotation then c
    else
      match AmountOf(c)
      case None => c
      case Some(lira) => c.(hasAnnotation := true, annotations := c.annotations + [LabelFor(conv, lira)])
  }

  /** One pass over all containers, each decided on its own. */
  function ScanAll(cs: seq<Container>, conv: Conversion): seq<Container> {
    seq(|cs|, i requires 0 <= i < |cs| => ConvertOne(cs[i], conv))
  }

  /** The scan loop of `convertPrices`, over the containers `querySelectorAll` returned. */
  method ScanContainers(containers: array<Container>, conv: Conversion)
    modifies containers
    ensures forall j :: 0 <= j < containers.Length ==> containers[j] == ConvertOne(old(containers[j]), conv)
  {
    for i := 0 to containers.Length
      invariant forall j :: 0 <= j < i ==> containers[j] == ConvertOne(old(containers[j]), conv)
      invariant forall j :: i <= j < containers.Length ==> containers[j] == old(containers[j])
    {
      var container := containers[i];
      if !container.hasAnnotation {
        var lira := AmountOf(container);
        if lira.Some? {
          var annotation := LabelFor(conv, lira.value);
          containers[i] := container.(hasAnnotation := true, annotations := container.annotations + [annotation]);
        }
      }
    }
  }

  /** A container gains exactly one annotation, at the end, when it had none
      and its text reads as a number; otherwise it is left exactly as it was.
      Its text and its earlier annotations never change. */
  lemma ConvertOneAppendsAtMostOne(c: Container, conv: Conversion)
    ensures var r := ConvertOne(c, conv);
      r.text == c.text && r.annotations[..|c.annotations|] == c.annotations
    ensures var r := ConvertOne(c, conv);
      (!c.hasAnnotation && AmountOf(c).Some?) <==> |r.annotations| == |c.annotations| + 1
    ensures var r := ConvertOne(c, conv);
      !(!c.hasAnnotation && AmountOf(c).Some?) <==> r == c
    ensures var r := ConvertOne(c, conv);
      |r.annotations| > |c.annotations| ==> r.annotations[|c.annotations|] == LabelFor(conv, AmountOf(c).value)
    ensures Consistent(c) ==> Consistent(ConvertOne(c, conv))
  {
  }

  /** A second pass, at whatever rate, changes nothing: the annotated
      containers are skipped and the others still do not parse. */
  lemma ScanIdempotent(cs: seq<Container>, first: Conversion, second: Conversion)
    ensures ScanAll(ScanAll(cs, first), second) == ScanAll(cs, first)
  {
    var once := ScanAll(cs, first);
    forall i | 0 <= i < |cs| ensures ConvertOne(once[i], second) == once[i] {
      ConvertOneAppendsAtMostOne(cs[i], first);
    }
  }

  /** Passes run one after another, the k-th with the k-th conversion. */
  function ScanRepeatedly(cs: seq<Container>, convs: seq<Conversion>): seq<Container>
    decreases |convs|
  {
    if convs == [] then cs else ScanRepeatedly(ScanAll(cs, convs[0]), convs[1..])
  }

  /** However many rescans follow, the page is what the first pass made of it:
      no container ever shows a second annotation or a later rate. */
  lemma {:induction false} RescansKeepFirstPass(cs: seq<Container>, convs: seq<Conversion>)
    requires |convs| > 0
    ensures ScanRepeatedly(cs, convs) == ScanAll(cs, convs[0])
    decreases |convs|
  {
    if |convs| > 1 {
      RescansKeepFirstPass(ScanAll(cs, convs[0]), convs[1..]);
      ScanIdempotent(cs, convs[0], convs[1]);
    }
  }

  /** A container that started without annotations ends with at most one,
      however many scans run. */
  lemma AtMostOneAnnotation(cs: seq<Container>, convs: seq<Conversion>, i: nat)
    requires i < |cs| && cs[i].annotations == []
    ensures |ScanRepeatedly(cs, convs)| == |cs|
    ensures |ScanRepeatedly(cs, convs)[i].annotations| <= 1
  {
    if convs != [] {
      RescansKeepFirstPass(cs, convs);
      ConvertOneAppendsAtMostOne(cs[i], convs[0]);
    }
  }

  /** Each converted amount leads back to the price in lira. */
  lemma ConversionInverts(conv: Conversion, lira: Numeral)
    requires WellFormed(lira)
    ensures conv.MultiplyToUsd? ==> AmountValue(LabelFor(conv, lira).amount) / conv.rate == Value(lira)
    ensures conv.DivideToSelected? ==> AmountValue(LabelFor(conv, lira).amount) * conv.rate == Value(lira)
  {
  }

  /** A page whose single container shows "₺1.000", at 0.03 dollars per lira,
      gets an annotation "$… USD" whose amount is 30. */
  lemma EndToEndExample()
    ensures var c := ConvertOne(Container("₺1.000", false, []), MultiplyToUsd(0.03));
      c.hasAnnotation && |c.annotations| == 1 &&
      c.annotations[0].prefix == "$" && c.annotations[0].currency == "USD" &&
      WellFormed(c.annotations[0].amount.lira) && AmountValue(c.annotations[0].amount) == 30.0
  {
    SanitizeExample();
    ParseFloatIntegerExample();
  }
}
