/** The names the service and the page exchange: symptom tokens and disease names, as JSON strings. */
module Names {

  type Symptom = string
  type Disease = string

}
