/**
 The model objects the servers collection passes in and gets back. Only
 what the collection reads of them is kept: the `id` of the objects it is
 passed. The parsers Server::parse, Action::parse and Meta::parse are not
 part of this model; each parsed object is represented by the decoded value
 it was parsed from. The model assumes that each parser returns an object
 for every input, null included: the promise that getById and deleteById
 return null only on an error rests on that. list and the create methods
 return an envelope whatever the parsers give, and the envelope's parts
 hold parsed objects, never null.
 */
module Models {
  import opened Php

  datatype ServerType = ServerType(id: int)
  datatype Image = Image(id: int)
  datatype Datacenter = Datacenter(id: int)
  datatype Location = Location(id: int)

  datatype Server = Server(parsedFrom: Value)
  datatype Action = Action(parsedFrom: Value)
  datatype Meta = Meta(parsedFrom: Value)

  /** Server::parse($raw). */
  function ParseServer(raw: Value): Server {
    Server(raw)
  }

  /** Action::parse($raw). */
  function ParseAction(raw: Value): Action {
    Action(raw)
  }

  /** Meta::parse($raw). */
  function ParseMeta(raw: Value): Meta {
    Meta(raw)
  }
}
