/** Failure-carrying values shared by every module of the model.
    Python exceptions raised by the library become `Err` values of the
    matching kind; `None` and optional arguments become `Option`. */
module Errors {

  /** The exception kinds the library raises or lets escape. */
  datatype Error =
    | ImproperlyConfigured   // django.core.exceptions.ImproperlyConfigured
    | NotImplemented         // NotImplementedError: a missing capability or hook
    | MissingAttribute       // AttributeError from getattr / a property on a missing method
    | IndexOutOfRange        // IndexError from sequence indexing
    | UnpackFailed           // ValueError: wrong number of values to unpack
    | InvalidValue           // ValueError from a conversion such as list.remove or an enum lookup
    | KeyMissing             // KeyError from `d[k]` or `del d[k]` on a missing key
    | UnorderableValue       // TypeError: comparing None with an int
    | TemplateSyntax         // django.template.TemplateSyntaxError
    | CommandFailed          // django.core.management.CommandError
    | NotFound               // django.http.Http404 from get_object_or_404

  datatype Option<+T> = None | Some(value: T)

  datatype Result<+T> = Ok(value: T) | Err(error: Error)

  /** Python truthiness of an optional string: absent and "" are both false. */
  predicate Truthy(s: Option<string>)
  {
    s.Some? && s.value != ""
  }
}
