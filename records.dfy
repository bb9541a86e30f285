/** The stored entities the core reads: products (products/models.py), the
    three report tables (reports/models.py), the products app's own
    consumption log, and shopping lists with their items
    (shopping_list/models.py). Timestamps and DateFields are day numbers and
    DecimalFields are hundredths. */
module Records {
  import opened Common

  /** A product in a user's inventory; `expiry_date` is a non-null
      DateField. */
  datatype Product = Product(
    id: ProductId,
    name: string,
    barcode: Option<string>,
    category: nat,
    expiry: Day,
    quantity: Hundredths,
    unit: string,
    owner: UserId,
    isActive: bool)

  /** A row of one of the three report tables. The constructors share
      `owner` and `date` (consumption_date, shopping_date, wastage_date);
      `Measure` is the field the reports sum (quantity or total_amount).
      `productName` is the value of the `product__name` join. */
  datatype Record =
    | Consumption(owner: UserId, product: ProductId, productName: string,
                  quantity: Hundredths, unit: string, date: Day)
    | Expense(owner: UserId, shoppingList: nat, totalAmount: Hundredths, date: Day)
    | Wastage(owner: UserId, product: ProductId, productName: string,
              quantity: Hundredths, unit: string, date: Day, reason: string)
  {
    /** The summed field: `quantity` for consumption and wastage,
        `total_amount` for expenses. */
    function Measure(): Hundredths
    {
      if Expense? then totalAmount else quantity
    }
  }

  /** A row of products.ProductConsumption, the table the consumption-trend
      rule reads; its `consumption_date` is a timestamp set on insert. */
  datatype UsageEntry = UsageEntry(owner: UserId, product: ProductId, quantity: Hundredths, at: Instant)

  datatype ShoppingList = ShoppingList(name: string, owner: UserId, isActive: bool)

  /** An item of a shopping list; `list` is the list's primary key. */
  datatype ShoppingListItem = ShoppingListItem(
    list: nat,
    product: ProductId,
    quantity: Hundredths,
    unit: string,
    isBought: bool)
}
