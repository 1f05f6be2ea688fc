/**
 * The response envelope ResponseModel<T>: a status, a payload and a message,
 * built through a ModelBuilder seeded with a status. A Java null is None.
 */
module Envelopes {
  import opened Wrappers
  import opened Http

  /** The three fields of a ResponseModel at one moment. */
  datatype Envelope<T> = Envelope(status: Option<HttpStatus>, data: Option<T>, message: Option<string>)

  class ResponseModel<T> {
    var status: Option<HttpStatus>
    var data: Option<T>
    var message: Option<string>

    /** The private constructor stores its three arguments as given. */
    constructor (status: Option<HttpStatus>, data: Option<T>, message: Option<string>)
      ensures Fields() == Envelope(status, data, message)
    {
      this.status := status;
      this.data := data;
      this.message := message;
    }

    /** The abstract value of the object: what the three getters return now. */
    function Fields(): (e: Envelope<T>)
      reads this
    {
      Envelope(status, data, message)
    }

    /** The status most recently stored. */
    function GetStatus(): (s: Option<HttpStatus>)
      reads this
      ensures s == Fields().status
    {
      status
    }

    /** The payload most recently stored, the object itself. */
    function GetData(): (d: Option<T>)
      reads this
      ensures d == Fields().data
    {
      data
    }

    /** The message most recently stored. */
    function GetMessage(): (m: Option<string>)
      reads this
      ensures m == Fields().message
    {
      message
    }

    /** Overwrites the status in place and returns this same object. */
    method SetStatus(status: Option<HttpStatus>) returns (self: ResponseModel<T>)
      modifies this
      ensures self == this
      ensures GetStatus() == status
      ensures GetData() == old(GetData()) && GetMessage() == old(GetMessage())
    {
      this.status := status;
      self := this;
    }

    /** Overwrites the payload in place and returns this same object. */
    method SetData(data: Option<T>) returns (self: ResponseModel<T>)
      modifies this
      ensures self == this
      ensures GetData() == data
      ensures GetStatus() == old(GetStatus()) && GetMessage() == old(GetMessage())
    {
      this.data := data;
      self := this;
    }

    /** Overwrites the message in place and returns this same object. */
    method SetMessage(message: Option<string>) returns (self: ResponseModel<T>)
      modifies this
      ensures self == this
      ensures GetMessage() == message
      ensures GetStatus() == old(GetStatus()) && GetData() == old(GetData())
    {
      this.message := message;
      self := this;
    }
  }

  /**
   * DefaultBuilder, the one implementation of the ModelBuilder interface: it
   * holds the status it was created with and never changes it. Each terminal
   * method allocates a new envelope carrying that status.
   */
  datatype ModelBuilder = DefaultBuilder(status: HttpStatus)
  {
    /** An envelope with the builder's status, no payload and the given message. */
    method Message<T>(message: Option<string>) returns (r: ResponseModel<T>)
      ensures fresh(r)
      ensures r.Fields() == Envelope(Some(status), None, message)
    {
      r := new ResponseModel(Some(status), None, message);
    }

    /** build() is body(null): the builder's status and nothing else. */
    method Build<T>() returns (r: ResponseModel<T>)
      ensures fresh(r)
      ensures r.Fields() == Envelope(Some(status), None, None)
    {
      r := Body(None);
    }

    /** An envelope with the builder's status, the given payload itself and no message. */
    method Body<T>(data: Option<T>) returns (r: ResponseModel<T>)
      ensures fresh(r)
      ensures r.Fields() == Envelope(Some(status), data, None)
    {
      r := new ResponseModel(Some(status), data, None);
    }

    /** An envelope with the builder's status, the given payload and the given message. */
    method MessageWithBody<T>(data: Option<T>, message: Option<string>) returns (r: ResponseModel<T>)
      ensures fresh(r)
      ensures r.Fields() == Envelope(Some(status), data, message)
    {
      r := new ResponseModel(Some(status), data, message);
    }
  }

  /** Spring's Assert.notNull throws IllegalArgumentException with the message it is given. */
  datatype IllegalArgumentException = IllegalArgumentException(message: string)

  const NullStatusMessage: string := "HttpStatus\U{4e0d}\U{80fd}\U{4e3a}null"

  /** The generic entry point: a null status is refused, any other seeds a builder. */
  function Status(status: Option<HttpStatus>): (r: Result<ModelBuilder, IllegalArgumentException>)
    ensures r.Failure? <==> status.None?
    ensures r.Failure? ==> r.error == IllegalArgumentException(NullStatusMessage)
    ensures r.Success? ==> r.value.status == status.value
  {
    match status
    case None => Failure(IllegalArgumentException(NullStatusMessage))
    case Some(s) => Success(DefaultBuilder(s))
  }

  /** 200: the operation succeeded. */
  function Ok(): (b: ModelBuilder)
    ensures Status(Some(OK)) == Success(b)
    ensures b.status.Value() == 200
  {
    Status(Some(OK)).value
  }

  /** 202: accepted (the source's comment: login succeeded). */
  function Accepted(): (b: ModelBuilder)
    ensures Status(Some(ACCEPTED)) == Success(b)
    ensures b.status.Value() == 202
  {
    Status(Some(ACCEPTED)).value
  }

  /** 406: the operation is refused, for instance a failed login. */
  function Rejected(): (b: ModelBuilder)
    ensures Status(Some(NOT_ACCEPTABLE)) == Success(b)
    ensures b.status.Value() == 406
  {
    Status(Some(NOT_ACCEPTABLE)).value
  }

  /** 400: a malformed request. */
  function BadRequest(): (b: ModelBuilder)
    ensures Status(Some(BAD_REQUEST)) == Success(b)
    ensures b.status.Value() == 400
  {
    Status(Some(BAD_REQUEST)).value
  }

  /** 403: no permission for the operation. */
  function Forbidden(): (b: ModelBuilder)
    ensures Status(Some(FORBIDDEN)) == Success(b)
    ensures b.status.Value() == 403
  {
    Status(Some(FORBIDDEN)).value
  }

  /** 500: internal server error; the name keeps the source's spelling. */
  function InternerServerError(): (b: ModelBuilder)
    ensures Status(Some(INTERNAL_SERVER_ERROR)) == Success(b)
    ensures b.status.Value() == 500
  {
    Status(Some(INTERNAL_SERVER_ERROR)).value
  }

  /** ok(data), the shortcut for ok().body(data). */
  method OkData<T>(data: Option<T>) returns (r: ResponseModel<T>)
    ensures fresh(r)
    ensures r.Fields() == Envelope(Some(OK), data, None)
  {
    r := Ok().Body(data);
  }

  /**
   * Two ok().build() calls give distinct objects with equal fields, and an
   * in-place setter on one leaves the other as it was.
   */
  method BuildTwice() returns (a: ResponseModel<int>, b: ResponseModel<int>, ghost built: Envelope<int>)
    ensures a != b
    ensures built == b.Fields() == Envelope(Some(OK), None, None)
    ensures a.Fields() == built.(message := Some("changed"))
  {
    a := Ok().Build();
    b := Ok().Build();
    built := a.Fields();
    var same := a.SetMessage(Some("changed"));
    assert same == a;
  }

  /**
   * status(FORBIDDEN).message("no access") carries 403 and the message only;
   * ok(42) carries 200 and the payload only.
   */
  method PresetScenarios() returns (denied: ResponseModel<int>, answer: ResponseModel<int>)
    ensures denied.GetStatus().Some? && denied.GetStatus().value.Value() == 403
    ensures denied.GetData() == None && denied.GetMessage() == Some("no access")
    ensures answer.GetStatus().Some? && answer.GetStatus().value.Value() == 200
    ensures answer.GetData() == Some(42) && answer.GetMessage() == None
  {
    var builder := Status(Some(FORBIDDEN));
    denied := builder.value.Message(Some("no access"));
    answer := OkData(Some(42));
  }

  /** Setting a message on ok(d) gives the fields that ok().messageWithBody(d, m) is built with. */
  method SetMessageAfterBody<T>(d: Option<T>, m: Option<string>) returns (r: ResponseModel<T>)
    ensures fresh(r)
    ensures r.Fields() == Envelope(Some(OK), d, m)
  {
    r := OkData(d);
    r := r.SetMessage(m);
  }
}
