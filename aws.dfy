/** The values that cross the boundary to the cloud services. */
module Aws {

  /** botocore's ClientError: the service's error code and message. */
  datatype ClientError = ClientError(code: string, message: string)

  /** A DynamoDB attribute value as the resource layer returns it. */
  datatype AttrValue =
    | N(num: real)
    | S(str: string)
    | M(fields: map<string, AttrValue>)

  /** A DynamoDB item: attribute names to values. */
  type Item = map<string, AttrValue>
}
