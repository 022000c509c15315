/**
 * The record shapes shared by the order screens and the reports
 * (src/types/order.ts). Prices and quantities are whole numbers.
 */
module OrderTypes {
  import opened Wrappers

  /** An order line as stored: `DBOrderItem`. `orderId` is optional. */
  datatype DBOrderItem = DBOrderItem(
    design: string,
    size: string,
    quantity: int,
    pricePerUnit: int,
    orderId: Option<int>)

  /** The catalog fields the size summary needs: `DesignInfo`. */
  datatype DesignInfo = DesignInfo(id: string, name: string)
}
