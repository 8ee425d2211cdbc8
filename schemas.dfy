/**
 * The three target table schemas: ordered column-name to column-type lists,
 * handed to the warehouse loader unchanged.
 */
module Schemas {
  import opened Transforms
  import opened Metadata

  datatype ColumnType = STRING | NUMBER | TIMESTAMP_TZ

  datatype Column = Column(name: string, kind: ColumnType)

  type Schema = seq<Column>

  function ColumnNames(schema: Schema): set<string>
  {
    set c | c in schema :: c.name
  }

  const CustomersSchema: Schema := [
    Column("id", STRING),
    Column("email", STRING),
    Column("first_name", STRING),
    Column("last_name", STRING),
    Column("phone", STRING),
    Column("street", STRING),
    Column("city", STRING),
    Column("state", STRING),
    Column("zip_code", STRING),
    Column("country", STRING),
    Column("created_at", TIMESTAMP_TZ),
    Column("updated_at", TIMESTAMP_TZ),
    Column("_loaded_at", TIMESTAMP_TZ),
    Column("_source", STRING)
  ]

  const OrdersSchema: Schema := [
    Column("id", STRING),
    Column("customer_id", STRING),
    Column("order_number", STRING),
    Column("status", STRING),
    Column("total_amount", NUMBER),
    Column("currency", STRING),
    Column("order_date", TIMESTAMP_TZ),
    Column("shipped_date", TIMESTAMP_TZ),
    Column("delivered_date", TIMESTAMP_TZ),
    Column("created_at", TIMESTAMP_TZ),
    Column("updated_at", TIMESTAMP_TZ),
    Column("_loaded_at", TIMESTAMP_TZ),
    Column("_source", STRING)
  ]

  const LineItemsSchema: Schema := [
    Column("id", STRING),
    Column("order_id", STRING),
    Column("product_id", STRING),
    Column("product_name", STRING),
    Column("quantity", NUMBER),
    Column("unit_price", NUMBER),
    Column("total_price", NUMBER),
    Column("created_at", TIMESTAMP_TZ),
    Column("updated_at", TIMESTAMP_TZ),
    Column("_loaded_at", TIMESTAMP_TZ),
    Column("_source", STRING)
  ]

  /** Each schema's columns are its transform's columns plus the two metadata columns. */
  lemma CustomersSchemaColumns()
    ensures ColumnNames(CustomersSchema) == CustomerFields + MetadataFields
  {
  }

  lemma OrdersSchemaColumns()
    ensures ColumnNames(OrdersSchema) == OrderFields + MetadataFields
  {
  }

  lemma LineItemsSchemaColumns()
    ensures ColumnNames(LineItemsSchema) == LineItemFields + MetadataFields
  {
  }
}
