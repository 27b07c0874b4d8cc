/** One query argument of a request: a mutable name/value record. */
module Argument {
  import opened Php

  class RequestArgument {
    var argumentName: string
    var argumentValue: PhpValue

    /** Stores the given name and value. */
    constructor (argumentName: string, argumentValue: PhpValue)
      ensures GetName() == argumentName && GetValue() == argumentValue
    {
      this.argumentName := argumentName;
      this.argumentValue := argumentValue;
    }

    function GetName(): string
      reads this
    {
      argumentName
    }

    function GetValue(): PhpValue
      reads this
    {
      argumentValue
    }

    /** Renames the argument, keeps its value, and returns the same object so calls can be chained. */
    method SetName(argumentName: string) returns (self: RequestArgument)
      modifies this
      ensures self == this
      ensures GetName() == argumentName && GetValue() == old(GetValue())
    {
      this.argumentName := argumentName;
      self := this;
    }

    /** Changes the value, keeps the name, and returns the same object so calls can be chained. */
    method SetValue(argumentValue: PhpValue) returns (self: RequestArgument)
      modifies this
      ensures self == this
      ensures GetValue() == argumentValue && GetName() == old(GetName())
    {
      this.argumentValue := argumentValue;
      self := this;
    }
  }

  /** A caller's view of the fluent setters: a chained rename and revalue touches one object only. */
  method RenameAndRevalue(a: RequestArgument, argumentName: string, argumentValue: PhpValue)
    returns (b: RequestArgument)
    modifies a
    ensures b == a
    ensures a.GetName() == argumentName && a.GetValue() == argumentValue
  {
    var renamed := a.SetName(argumentName);
    b := renamed.SetValue(argumentValue);
  }
}
