/** The JSON envelope every handler answers with (model/api_response.go). */
module ApiModel {
  import opened Wrappers

  /** `APIResponseStatus`, a string type with two declared values. */
  datatype APIResponseStatus = StatusSuccess | StatusError
  {
    /** The string each value stands for. */
    function Text(): (s: string)
      ensures s == "success" || s == "error"
      ensures StatusSuccess? <==> s == "success"
    {
      match this
      case StatusSuccess => "success"
      case StatusError => "error"
    }
  }

  /** `APIResponse`; `Data` is an `interface{}`, absent when nil. */
  datatype APIResponse<D> = APIResponse(
    statusCode: int,
    status: APIResponseStatus,
    message: string,
    data: Option<D>)
  {
    function HTTPStatus(): int
    {
      statusCode
    }
  }

  /** An error envelope: the given code and message, status "error", no data. */
  function NewAPIResponseError<D>(statusCode: int, message: string): (r: APIResponse<D>)
    ensures r.HTTPStatus() == statusCode
    ensures r.status.Text() == "error" && r.message == message && r.data.None?
  {
    APIResponse(statusCode, StatusError, message, None)
  }

  /** A success envelope: the given code and data, status "success", no
      message. */
  function NewAPIResponseSuccess<D>(statusCode: int, data: Option<D>): (r: APIResponse<D>)
    ensures r.HTTPStatus() == statusCode
    ensures r.status.Text() == "success" && r.message == "" && r.data == data
  {
    APIResponse(statusCode, StatusSuccess, "", data)
  }

  /** The two constructors can never be confused: their statuses have
      different texts, whatever the codes, messages and data. */
  lemma ConstructorsDiffer<D>(code1: int, message: string, code2: int, data: Option<D>)
    ensures NewAPIResponseError<D>(code1, message).status.Text()
         != NewAPIResponseSuccess<D>(code2, data).status.Text()
  {
  }
}
