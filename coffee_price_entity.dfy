/**
 * The coffee-price records: the raw strings scraped from the federation's page
 * and the normalised indicator the API returns.
 */
module CoffeePriceEntity {
  import opened Wrappers

  /**
   * The scraped strings. The scraper fills the record field by field and leaves
   * a field absent when its list item is missing, so every field is optional.
   */
  datatype ScrapedData = ScrapedData(
    precioInternoReferencia: Option<string>,
    precioInternoFecha: Option<string>,
    bolsaNY: Option<string>,
    bolsaFecha: Option<string>,
    tasaCambio: Option<string>,
    tasaFecha: Option<string>,
    mecic: Option<string>,
    mecicFecha: Option<string>,
    pdfUrl: Option<string>)

  /** A value with its currency and date (the reference price and the exchange rate). */
  datatype PriceInCurrency = PriceInCurrency(valor: real, moneda: string, fecha: string)

  /** A value with its unit and date (the New York quote). */
  datatype PriceInUnit = PriceInUnit(valor: real, unidad: string, fecha: string)

  /** A value with its date (the MeCIC compensation). */
  datatype DatedValue = DatedValue(valor: real, fecha: string)

  datatype PriceSource = PriceSource(url: string, pdfPrecio: Option<string>)

  datatype CoffeePriceIndicator = CoffeePriceIndicator(
    precioInternoReferencia: PriceInCurrency,
    bolsaNY: PriceInUnit,
    tasaCambio: PriceInCurrency,
    mecic: DatedValue,
    fuente: PriceSource)
}
