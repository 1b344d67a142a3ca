/** Log records as the receiver emits them. */
module Records {

  datatype Option<+T> = None | Some(value: T)

  datatype Severity = Trace | Debug | Info | Warn | Error | Fatal | Other(number: int)

  function SeverityText(s: Severity): string {
    match s
    case Trace => "TRACE"
    case Debug => "DEBUG"
    case Info => "INFO"
    case Warn => "WARN"
    case Error => "ERROR"
    case Fatal => "FATAL"
    case Other(_) => "INFO"
  }

  /** An emitted record together with the attributes of the resource it belongs to.  An attribute
      value is represented by the text that the statistics print for it.  `needle` names the needle
      that replaced the generated record, if one did. */
  datatype LogRecord = LogRecord(
    time: int,
    severity: Severity,
    body: string,
    attrs: map<string, string>,
    resource: map<string, string>,
    needle: Option<string>,
    trace: Option<(nat, nat)>)

  function NeedleBag(r: LogRecord): multiset<string> {
    match r.needle
    case None => multiset{}
    case Some(name) => multiset{name}
  }
}
