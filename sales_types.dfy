/**
 * The record shapes of the summarizer: the incoming SalesData, the
 * DtoSalesData it is copied into on ingestion, and the SummarizedSalesData
 * rows it produces. Prices (C# decimal) are integers in a fixed smallest
 * unit; volumes (C# double) are reals with exact addition.
 */
module SalesTypes {
  import opened Calendar

  /** SalesData. The sales date is carried already parsed; OtherData (a payload of random bytes) is not modelled. */
  datatype SalesData = SalesData(
    id: int,
    productId: int,
    productName: string,
    storeId: string,
    storeName: string,
    brandId: string,
    brandName: string,
    companyId: int,
    companyName: string,
    salesDate: CalendarDate,
    volume: real,
    price: int)

  /** DtoSalesData: the fields of a sales record the summarizer keeps. */
  datatype Dto = Dto(
    productId: int,
    storeId: string,
    brandId: string,
    companyId: int,
    salesDate: CalendarDate,
    volume: real,
    price: int)

  /** SummarizedSalesData: one output row per aggregation key of a company. */
  datatype Summary = Summary(
    productId: int,
    companyId: int,
    storeId: string,
    brandId: string,
    weekNumber: int,
    totalVolume: real,
    totalPrice: int)

  /** The copy made on ingestion (lines 100-109). */
  function ToDto(item: SalesData): Dto {
    Dto(item.productId, item.storeId, item.brandId, item.companyId, item.salesDate, item.volume, item.price)
  }
}
