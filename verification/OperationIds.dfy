/**
 * The operation ids of a compiled plan. The transformer writes them as formatted strings; the
 * datatype names what each string identifies, and rendering is injective.
 */
module OperationIds {
  import opened Text

  datatype OperationKey =
    | Group(group: nat)
    | Company(developer: nat)
    | Requisite(developer: nat)
    | ActualAddress(developer: nat)
    | LegalAddress(developer: nat)
    | Lead(object_: nat)

  function Render(key: OperationKey): (id: string)
    ensures |id| > 0
  {
    match key
    case Group(g) => "group:" + Decimal(g)
    case Company(d) => "company:" + Decimal(d)
    case Requisite(d) => "requisite:" + Decimal(d)
    case ActualAddress(d) => "address:" + Decimal(d) + ":actual"
    case LegalAddress(d) => "address:" + Decimal(d) + ":legal"
    case Lead(o) => "lead:" + Decimal(o)
  }

  /** No two keys share an operation id, whatever their numbers. */
  lemma {:induction false} RenderInjective(a: OperationKey, b: OperationKey)
    requires Render(a) == Render(b)
    ensures a == b
  {
    var id := Render(a);
    assert id[0] == (match a case Group(_) => 'g' case Company(_) => 'c' case Requisite(_) => 'r'
                             case ActualAddress(_) => 'a' case LegalAddress(_) => 'a' case Lead(_) => 'l');
    assert id[0] == (match b case Group(_) => 'g' case Company(_) => 'c' case Requisite(_) => 'r'
                             case ActualAddress(_) => 'a' case LegalAddress(_) => 'a' case Lead(_) => 'l');
    assert id[|id| - 3] == 'u' <== a.ActualAddress?;
    assert id[|id| - 3] == 'u' <== b.ActualAddress?;
    assert id[|id| - 3] == 'g' <== a.LegalAddress?;
    assert id[|id| - 3] == 'g' <== b.LegalAddress?;
    DecimalIsASlice(a);
    DecimalIsASlice(b);
    DecimalInjective(Number(a), Number(b));
  }

  lemma {:induction false} RenderHasText(key: OperationKey)
    ensures HasText(Render(key))
  {
    assert !IsSpace(Render(key)[0]);
  }

  function Number(key: OperationKey): nat {
    match key
    case Group(g) => g
    case Company(d) => d
    case Requisite(d) => d
    case ActualAddress(d) => d
    case LegalAddress(d) => d
    case Lead(o) => o
  }

  function PrefixLength(key: OperationKey): nat {
    match key
    case Group(_) => 6
    case Company(_) => 8
    case Requisite(_) => 10
    case ActualAddress(_) => 8
    case LegalAddress(_) => 8
    case Lead(_) => 5
  }

  function SuffixLength(key: OperationKey): nat {
    if key.ActualAddress? then 7 else if key.LegalAddress? then 6 else 0
  }

  lemma {:induction false} DecimalIsASlice(key: OperationKey)
    ensures |Render(key)| >= PrefixLength(key) + SuffixLength(key)
    ensures Decimal(Number(key)) == Render(key)[PrefixLength(key)..|Render(key)| - SuffixLength(key)]
  {
  }
}
