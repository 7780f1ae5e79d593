/** Thrown errors and the script record they are annotated with. */
module Errors {
  import opened JsValues

  /** A stored script: its body and the identifiers the store may have given it. */
  datatype Script = Script(content: string, id: Option<string>, shortid: Option<string>, name: Option<string>)

  /** What an error carries to point a report at the stored script that caused it. */
  datatype Entity = Entity(shortid: string, name: Option<string>, content: string)

  /** JavaScript truthiness of an optional string identifier: present and non-empty. */
  predicate Truthy(o: Option<string>)
  {
    o.Some? && o.value != ""
  }

  /** A thrown JavaScript `Error` object. The hook runner reads its cancellation
      marker and payload, and the outer handler rewrites its message and attaches
      the script entity in place before rethrowing it. */
  class ScriptError {
    var message: string
    var isRequestCancel: bool
    var data: JsVal
    var entity: Option<Entity>
    var property: Option<string>

    /** `new Error(message)`: no marker, no payload, no entity. */
    constructor (message: string)
      ensures this.message == message
      ensures !isRequestCancel && data == Undefined && entity == None && property == None
    {
      this.message := message;
      isRequestCancel := false;
      data := Undefined;
      entity := None;
      property := None;
    }
  }
}
