/**
  How a write to the database or to Redis ends for the code that asked for it.
 */
module Writes {

  // Done, refused, or done although the caller got an error.
  datatype Sql = Ok | Refused | Lost
}
