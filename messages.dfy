/** The titles, messages and links that the rules store in notifications.
    A text is kept as its template and arguments (`Text`, `Link`); `Render`
    and `Path` give the exact string the Python f-string builds. */
module Messages {
  import opened Common

  datatype Text =
    // reports/notifications.py
    | BudgetTitle
    | BudgetMessage(total: Hundredths, threshold: int)
    | HighWastageTitle
    | HighWastageMessage(count: nat, threshold: int)
    | IncreaseTitle
    | IncreaseMessage
    | DecreaseTitle
    | DecreaseMessage
    // notifications/services.py
    | ExpiryTitle(name: string)
    | ExpiryMessage(name: string, daysLeft: int)
    | LowStockTitle(name: string)
    | LowStockMessage(name: string, quantity: Hundredths, unit: string)
    | WastedTitle(name: string)
    | WastedMessage(name: string, reason: string)
    | SummaryTitle
    | SummaryMessage(count: nat)
    // notifications/signals.py
    | ExpiringSoonTitle
    | ExpiringSoonMessage(name: string, days: int)
    | ExpiredTitle
    | ExpiredMessage(name: string)
    | StockTitle
    | StockMessage(name: string, quantity: Hundredths, unit: string)
    | NewListTitle
    | NewListMessage(name: string)

  /** The string each template produces. Amounts print as two-place
      decimals, counts and day numbers as integers. */
  function Render(t: Text): string
  {
    match t
    case BudgetTitle => "Przekroczono próg budżetowy"
    case BudgetMessage(total, threshold) =>
      "W ostatnich 30 dniach wydano " + DecimalStr(total) + " zł, co przekracza próg " + IntStr(threshold) + " zł."
    case HighWastageTitle => "Wysokie marnowanie produktów"
    case HighWastageMessage(count, threshold) =>
      "W ostatnich 30 dniach odnotowano " + NatStr(count)
        + " przypadków marnowania produktów, co przekracza próg " + IntStr(threshold) + "."
    case IncreaseTitle => "Znaczący wzrost zużycia"
    case IncreaseMessage =>
      "W ostatnich 15 dniach odnotowano znaczący wzrost zużycia produktów w porównaniu do poprzednich 15 dni."
    case DecreaseTitle => "Znaczący spadek zużycia"
    case DecreaseMessage =>
      "W ostatnich 15 dniach odnotowano znaczący spadek zużycia produktów w porównaniu do poprzednich 15 dni."
    case ExpiryTitle(name) => "Kończy się data ważności produktu " + name
    case ExpiryMessage(name, d) => "Produkt " + name + " straci ważność za " + IntStr(d) + " dni."
    case LowStockTitle(name) => "Niski stan magazynowy produktu " + name
    case LowStockMessage(name, q, unit) =>
      "Produkt " + name + " ma niski stan magazynowy (" + DecimalStr(q) + " " + unit + ")."
    case WastedTitle(name) => "Marnowanie produktu " + name
    case WastedMessage(name, reason) =>
      "Produkt " + name + " został oznaczony jako marnowany. Powód: " + reason
    case SummaryTitle => "Podsumowanie marnowania produktów"
    case SummaryMessage(count) =>
      "W ciągu ostatnich 30 dni odnotowano " + NatStr(count) + " przypadków marnowania produktów."
    case ExpiringSoonTitle => "Produkt wkrótce się przeterminuje"
    case ExpiringSoonMessage(name, d) => "Produkt \"" + name + "\" przeterminuje się za " + IntStr(d) + " dni."
    case ExpiredTitle => "Produkt się przeterminował"
    case ExpiredMessage(name) => "Produkt \"" + name + "\" się przeterminował."
    case StockTitle => "Niski stan magazynowy"
    case StockMessage(name, q, unit) =>
      "Produkt \"" + name + "\" ma niski stan magazynowy (" + DecimalStr(q) + " " + unit + ")."
    case NewListTitle => "Nowa lista zakupów"
    case NewListMessage(name) => "Utworzono nową listę zakupów \"" + name + "\"."
  }

  /** `part` occurs in `s` at position `at`. */
  predicate OccursAt(part: string, s: string, at: nat)
  {
    at + |part| <= |s| && s[at..at + |part|] == part
  }

  /** The "soon" expiry message states the day count in decimal, right
      after the quoted product name. */
  lemma SoonMessageMentionsDays(name: string, d: int)
    ensures OccursAt(IntStr(d), Render(ExpiringSoonMessage(name, d)), |name| + 32)
  {
    var pre := "Produkt \"" + name + "\" przeterminuje się za ";
    assert |pre| == |name| + 32;
    var s := Render(ExpiringSoonMessage(name, d));
    assert s == pre + IntStr(d) + " dni.";
    assert s[|pre|..|pre| + |IntStr(d)|] == IntStr(d);
  }

  /** The link of a notification: a product's page or the wastage report. */
  datatype Link = ProductPage(product: ProductId) | WastageReportPage

  function Path(l: Link): string
  {
    match l
    case ProductPage(id) => "/products/" + NatStr(id) + "/"
    case WastageReportPage => "/reports/wastage/"
  }

  /** Different products get different links. */
  lemma ProductPathsDistinct(a: ProductId, b: ProductId)
    requires a != b
    ensures Path(ProductPage(a)) != Path(ProductPage(b))
  {
    var pa, pb := Path(ProductPage(a)), Path(ProductPage(b));
    if pa == pb {
      assert |NatStr(a)| == |NatStr(b)|;
      assert NatStr(a) == pa[10..|pa| - 1];
      assert NatStr(b) == pb[10..|pb| - 1];
      NatStrInjective(a, b);
    }
  }
}
