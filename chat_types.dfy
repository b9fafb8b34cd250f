/**
  Values exchanged by the ChatBox component: messages, sessions, what the
  remote chat service can answer, and the requests the component issues.
  The HTTP layer (URLs, headers, JSON) is reduced to these values.
 */
module ChatTypes {

  datatype Option<T> = None | Some(value: T)

  datatype Sender = User | Counselor

  datatype Status = Sent | Delivered

  /** A chat message: a server record, or an optimistic placeholder built on send. */
  datatype Message = Message(id: int, text: string, sender: Sender, createdAt: string, status: Option<Status>)

  /** A chat session as listed or created by the service. */
  datatype Session = Session(id: int, title: string, createdAt: string)

  /**
    The outcome of one awaited `fetch`: a response with `res.ok` and a decoded
    body, a response with `res.ok` false (the handler throws its own fixed
    message), or a rejected promise (network failure or a body that is not
    JSON), which carries the message of the error thrown.
   */
  datatype Response<T> = Ok(body: T) | NotOk | Threw(message: string)

  /**
    The body of a message listing, `{ messages, total }`; either field may be
    missing or null, which the component replaces by `[]` and `0`.
   */
  datatype MessagePage = MessagePage(messages: Option<seq<Message>>, total: Option<nat>)

  /** The requests the component sends to the remote chat service. */
  datatype Request =
    | ListSessions(userId: int)
    | ListMessages(userId: int, sessionId: int, page: nat, limit: nat)
    | CreateMessage(text: string, userId: int, sessionId: int)
    | CreateSession(userId: int, title: string)

  /** The single user the component acts for. */
  const USER_ID: int := 1234

  /** Number of messages requested per page. */
  const PAGE_SIZE: nat := 10

  const SESSIONS_FAILED: string := "Failed to fetch sessions"
  const MESSAGES_FAILED: string := "Failed to fetch messages"
  const SEND_FAILED: string := "Failed to send message"
  const CREATE_FAILED: string := "Failed to create session"

  /** Title used when the prompt is cancelled or left empty. */
  const DEFAULT_TITLE: string := "New session"

  /**
    The text a catch block stores in `error` for a failed call whose
    `!res.ok` branch throws `notOk`.
   */
  function ErrorText<T>(resp: Response<T>, notOk: string): string
    requires !resp.Ok?
  {
    match resp
    case NotOk => notOk
    case Threw(m) => m
  }

  /** `data.messages ?? []` for a successful listing, and `[]` after a failed one. */
  function PageMessages(resp: Response<MessagePage>): seq<Message>
  {
    match resp
    case Ok(MessagePage(Some(ms), _)) => ms
    case _ => []
  }

  /** `data.total ?? 0` for a successful listing, and `0` after a failed one. */
  function PageTotal(resp: Response<MessagePage>): nat
  {
    match resp
    case Ok(MessagePage(_, Some(n))) => n
    case _ => 0
  }
}
