/** Plain JavaScript values as the two store slices hold them. */
module JsValues {

  /** A property that may be absent: `None` stands for `undefined`. */
  datatype Option<+T> = None | Some(value: T)

  /** Identifiers handed out by the remote service (MongoDB-style strings). */
  type Id = string

  /** A property value other than the two identifier properties. */
  datatype Prop = Text(text: string) | Nested(record: Record)

  /**
   * A plain object stored in a slice: an organization, an employee, or any payload
   * a fulfilled action carries. The reducers only ever read its `_id` property
   * (and, for a deleted organization, its `id` property); `props` holds the rest.
   */
  datatype Record = Record(_id: Option<Id>, id: Option<Id>, props: map<string, Prop>)
}
