/**
 * The guards of the three forms that feed the write paths: the add-product
 * modal (src/components/AddProductModal.tsx), the close-session modal
 * (src/components/CloseSessionModal.tsx) and the open-session screen
 * (src/components/OpenSessionScreen.tsx). A guard either rejects with the
 * message the form shows or hands normalised values to the write path.
 * `parseFloat` results are inputs: None stands for NaN.
 */
module Forms {
  import opened Wrappers
  import opened Text
  import opened Db
  import opened Session

  datatype Checked<T> = Rejected(message: string) | Accepted(value: T)

  // ---------------------------------------------------------------------
  // Add product

  const NameRequired: string := "Name is required."
  const SkuRequired: string := "SKU is required."
  const InvalidPrice: string := "Enter a valid price (0 or more)."
  const InvalidQuantity: string := "Initial quantity must be 0 or more."

  /** AddProductFormValues as the write path receives them; `price` is the number the form re-stringified. */
  datatype ProductFormValues = ProductFormValues(
    name: string, sku: string, price: real, description: string, initialQuantity: string)

  /**
   * handleSubmit: name, then SKU, then price, then quantity; the first check
   * that fails decides the message, and only input that passes all four
   * reaches onSubmit, trimmed and with the quantity written back as digits.
   */
  function ValidateProduct(name: string, sku: string, price: Option<real>, description: string,
                           initialQuantity: string): (r: Checked<ProductFormValues>)
    ensures r == Rejected(NameRequired) <==> Trim(name) == ""
    ensures r == Rejected(SkuRequired) <==> Trim(name) != "" && Trim(sku) == ""
    ensures r == Rejected(InvalidPrice) <==>
              Trim(name) != "" && Trim(sku) != "" && (price.None? || price.value < 0.0)
    ensures r == Rejected(InvalidQuantity) <==>
              && Trim(name) != "" && Trim(sku) != "" && price.Some? && price.value >= 0.0
              && (ParseInt(initialQuantity).None? || ParseInt(initialQuantity).value < 0)
    ensures r.Accepted? <==>
              && Trim(name) != "" && Trim(sku) != "" && price.Some? && price.value >= 0.0
              && ParseInt(initialQuantity).Some? && ParseInt(initialQuantity).value >= 0
    ensures r.Accepted? ==>
              && r.value.name == Trim(name) && r.value.sku == Trim(sku)
              && r.value.description == Trim(description) && r.value.price == price.value
              && ParseIntOrZero(r.value.initialQuantity) == ParseInt(initialQuantity).value
  {
    if Trim(name) == "" then Rejected(NameRequired)
    else if Trim(sku) == "" then Rejected(SkuRequired)
    else if price.None? || price.value < 0.0 then Rejected(InvalidPrice)
    else
      var qty := ParseInt(initialQuantity);
      if qty.None? || qty.value < 0 then Rejected(InvalidQuantity)
      else
        ParseShowInt(qty.value);
        Accepted(ProductFormValues(Trim(name), Trim(sku), price.value, Trim(description), ShowInt(qty.value)))
  }

  /**
   * What passes the guard is clean: a non-blank trimmed name and SKU, a
   * price of at least 0, and a quantity string that `parseInt(.., 10) || 0`
   * reads back as the quantity the user typed, which is at least 0.
   */
  lemma AcceptedProductIsClean(name: string, sku: string, price: Option<real>, description: string,
                               initialQuantity: string)
    requires ValidateProduct(name, sku, price, description, initialQuantity).Accepted?
    ensures var v := ValidateProduct(name, sku, price, description, initialQuantity).value;
            && v.name != "" && Trim(v.name) == v.name
            && v.sku != "" && Trim(v.sku) == v.sku
            && Trim(v.description) == v.description
            && v.price >= 0.0
            && ParseIntOrZero(v.initialQuantity) == ParseInt(initialQuantity).value >= 0
  {
    TrimIdempotent(name);
    TrimIdempotent(sku);
    TrimIdempotent(description);
  }

  /** 0 is a valid price and a valid quantity: both guards are strict `< 0`. */
  lemma ZeroPriceAndQuantityAccepted(name: string, sku: string, description: string)
    requires Trim(name) != "" && Trim(sku) != ""
    ensures ValidateProduct(name, sku, Some(0.0), description, "0").Accepted?
  {
    ParseShowInt(0);
    assert ShowInt(0) == "0";
  }

  // ---------------------------------------------------------------------
  // Close session

  const InvalidClosing: string := "Enter a valid closing balance (0 or more)."

  /** The closing-balance guard: NaN or negative is rejected and onClose is not called. */
  function ValidateClosing(balance: Option<real>): (r: Checked<real>)
    ensures r.Accepted? <==> balance.Some? && balance.value >= 0.0
    ensures r.Accepted? ==> r.value == balance.value
    ensures r.Rejected? ==> r.message == InvalidClosing
  {
    if balance.None? || balance.value < 0.0 then Rejected(InvalidClosing) else Accepted(balance.value)
  }

  /**
   * The expected balance the modal shows: the opening balance until the
   * session's sales have loaded, then the opening balance plus their total.
   */
  function ExpectedShown(openingBalance: real, loaded: Option<seq<Sale>>): real
  {
    match loaded
    case None => openingBalance
    case Some(list) => openingBalance + SalesSum(list)
  }

  /**
   * Once loaded, the modal shows the expected balance an offline close stores:
   * the same opening balance plus the same sales, whatever order they load in.
   */
  lemma ShownExpectedMatchesStored(sessions: map<string, PosSession>, sales: map<string, Sale>,
                                   sessionId: string, list: seq<Sale>)
    requires Enumerates(list, sales, sessionId)
    ensures ExpectedShown(OpeningOf(sessions, sessionId), Some(list)) ==
            OpeningOf(sessions, sessionId) + SessionTotal(sales, sessionId)
  {
    EnumeratedSum(list, sales, sessionId);
  }

  /** `if (result?.variance != null) setVariance(result.variance)`. */
  function RecordVariance(shown: Option<real>, result: Option<real>): (r: Option<real>)
    ensures result.Some? ==> r == result
    ensures result.None? ==> r == shown
  {
    if result.Some? then result else shown
  }

  /** The sign shown before a variance: '+' for 0 and above, nothing otherwise (toFixed writes the '-'). */
  function VariancePrefix(variance: real): string
  {
    if variance >= 0.0 then "+" else ""
  }

  /** After an offline close the modal shows '+' exactly when the drawer holds at least the expected amount. */
  lemma OfflineVariancePrefix(closingBalance: real, expected: real)
    ensures VariancePrefix(closingBalance - expected) == "+" <==> closingBalance >= expected
    ensures VariancePrefix(closingBalance - expected) == "" <==> closingBalance < expected
  {
  }

  // ---------------------------------------------------------------------
  // Open session

  const InvalidOpening: string := "Enter a valid opening balance (0 or more)."

  /** What onOpen receives: the parsed balance and the device id, absent when blank. */
  datatype OpenRequest = OpenRequest(openingBalance: real, deviceId: Option<string>)

  /** handleSubmit of the open-session screen. */
  function ValidateOpening(balance: Option<real>, deviceId: string): (r: Checked<OpenRequest>)
    ensures r.Accepted? <==> balance.Some? && balance.value >= 0.0
    ensures r.Rejected? ==> r.message == InvalidOpening
    ensures r.Accepted? ==> r.value.openingBalance == balance.value
    ensures r.Accepted? ==> (r.value.deviceId.None? <==> AllWhitespace(deviceId))
    ensures r.Accepted? && !AllWhitespace(deviceId) ==> r.value.deviceId == Some(Trim(deviceId))
  {
    if balance.None? || balance.value < 0.0 then Rejected(InvalidOpening)
    else
      TrimEmptyIff(deviceId);
      Accepted(OpenRequest(balance.value, if Trim(deviceId) != "" then Some(Trim(deviceId)) else None))
  }

  /** A device id that reaches openSession is never blank and carries no surrounding whitespace. */
  lemma OpeningDeviceIdIsClean(balance: Option<real>, deviceId: string)
    requires ValidateOpening(balance, deviceId).Accepted?
    ensures var d := ValidateOpening(balance, deviceId).value.deviceId;
            d.Some? ==> d.value != "" && Trim(d.value) == d.value
  {
    TrimIdempotent(deviceId);
  }
}
