/**
 * `vessel-charging/messages/StatusMessageParams`: the parameters of a vessel
 * charging status message. The base class (`../MessageParams`) is not part of
 * this model: what it keeps is left out, and what its `serialize` produces is
 * passed in as `baseSerialized`.
 */
module StatusMessage {
  import opened Wrappers
  import opened JsonValues

  /** `_messageType`, handed to the base constructor. */
  const MessageType: string := "vessel_status_message"

  /** The message of the error thrown when `values` has no `location`. */
  const LocationRequired: string := "location is a required field"

  /** What constructing with `values` throws, if anything: only a supplied `values` whose
      `location` is falsy is refused; no `values` at all is accepted. */
  function ConstructionError(values: Option<map<string, Json>>): (r: Option<string>)
    ensures r.Some? <==> values.Some? && !Truthy(Field(values.value, "location"))
    ensures r.Some? ==> r.value == LocationRequired
  {
    match values
    case None => None
    case Some(v) => if Truthy(Field(v, "location")) then None else Some(LocationRequired)
  }

  /** `serialize`: the base's serialization with `location` assigned onto it
      (`Object.assign`), which adds the key or overwrites it and leaves every other key alone. */
  function Serialized(baseSerialized: map<string, Json>, location: Json): (r: map<string, Json>)
    ensures r.Keys == baseSerialized.Keys + {"location"}
    ensures Field(r, "location") == location
    ensures forall k :: k in baseSerialized && k != "location" ==> r[k] == baseSerialized[k]
  {
    baseSerialized["location" := location]
  }

  class MessageParams {
    /** The message type the base class was constructed with. */
    var messageType: string
    /** `this.location`; `Undefined` while unset. */
    var location: Json

    /** The constructor when it does not throw. */
    constructor (values: Option<map<string, Json>>)
      requires ConstructionError(values).None?
      ensures messageType == MessageType
      ensures location == if values.Some? then Field(values.value, "location") else Undefined
    {
      messageType := MessageType;
      if values.Some? {
        location := Field(values.value, "location");
      } else {
        location := Undefined;
      }
    }

    /** `new MessageParams(values)`: throws "location is a required field" when `values` is
        given without a truthy `location`; otherwise the base gets `'vessel_status_message'`
        and `location` is exactly `values.location`, or stays unset when no `values` is given. */
    static method New(values: Option<map<string, Json>>) returns (r: Result<MessageParams, string>)
      ensures r.Failure? <==> values.Some? && !Truthy(Field(values.value, "location"))
      ensures r.Failure? ==> r.error == LocationRequired
      ensures r.Success? ==> fresh(r.value) && r.value.messageType == MessageType
      ensures r.Success? && values.Some? ==> r.value.location == values.value["location"]
      ensures r.Success? && values.None? ==> r.value.location == Undefined
    {
      var error := ConstructionError(values);
      if error.Some? {
        return Failure(error.value);
      }
      var params := new MessageParams(values);
      r := Success(params);
    }

    /** `serialize()`: the base serialization extended with this object's `location`. */
    method Serialize(baseSerialized: map<string, Json>) returns (formattedParams: map<string, Json>)
      ensures formattedParams == Serialized(baseSerialized, location)
    {
      formattedParams := Serialized(baseSerialized, location);
    }

    /** `deserialize(json)`: `location` becomes `json.location` (`Undefined` when absent). */
    method Deserialize(json: map<string, Json>)
      modifies this
      ensures location == Field(json, "location")
      ensures messageType == old(messageType)
    {
      location := Field(json, "location");
    }
  }

  /** After `y.deserialize(x.serialize())`, `y.location == x.location`. */
  method SerializeThenDeserialize(x: MessageParams, y: MessageParams, baseSerialized: map<string, Json>)
    modifies y
    ensures y.location == old(x.location)
    ensures y.messageType == old(y.messageType)
  {
    var json := x.Serialize(baseSerialized);
    y.Deserialize(json);
  }
}
