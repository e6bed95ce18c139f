/**
 * EmilContainerEnvironment: the container-specific fields of an environment record.
 * The plain setters replace one field each; setArgs and setEnv ignore a null list and
 * otherwise install a fresh list holding the given elements in order, so later changes
 * to the caller's list do not reach the environment.
 */
module ContainerEnvironments {
  import opened JavaLang

  /** A mutable java.util.List<String>. */
  class StringList {
    var elements: seq<string>

    constructor (elements: seq<string>)
      ensures this.elements == elements
    {
      this.elements := elements;
    }

    /** list.add(element). */
    method Add(element: string)
      modifies this
      ensures elements == old(elements) + [element]
    {
      elements := elements + [element];
    }
  }

  /** A list that is null or holds exactly these elements, in order. */
  predicate ListHolds(list: StringList?, expected: Option<seq<string>>)
    reads list
  {
    if list == null then expected.None? else expected == Some(list.elements)
  }

  /** EmilContainerEnvironment, over the networking type it stores without inspecting it. */
  class EmilContainerEnvironment<Networking> {
    var input: Option<string>
    var output: Option<string>
    var args: StringList?
    var env: StringList?
    var runtimeId: Option<string>
    var networking: Option<Networking>

    /** A new environment: every field null. */
    constructor ()
      ensures input == None && output == None && args == null && env == null
      ensures runtimeId == None && networking == None
    {
      input := None;
      output := None;
      args := null;
      env := null;
      runtimeId := None;
      networking := None;
    }

    method SetInput(input: Option<string>)
      modifies this`input
      ensures this.input == input
    {
      this.input := input;
    }

    method SetOutput(output: Option<string>)
      modifies this`output
      ensures this.output == output
    {
      this.output := output;
    }

    method SetRuntimeId(runtimeId: Option<string>)
      modifies this`runtimeId
      ensures this.runtimeId == runtimeId
    {
      this.runtimeId := runtimeId;
    }

    method SetNetworking(networking: Option<Networking>)
      modifies this`networking
      ensures this.networking == networking
    {
      this.networking := networking;
    }

    /**
     * setArgs(list): a null list leaves the arguments as they were; otherwise they become
     * a fresh list with the same elements in the same order.
     */
    method SetArgs(list: StringList?)
      modifies this`args
      ensures list == null ==> args == old(args)
      ensures list != null ==> fresh(args) && args.elements == list.elements
    {
      if list != null {
        var copy := new StringList([]);
        copy.elements := list.elements;
        args := copy;
      }
    }

    /** setEnv(list): the same null-keeps and copy rule as setArgs, for the environment variables. */
    method SetEnv(list: StringList?)
      modifies this`env
      ensures list == null ==> env == old(env)
      ensures list != null ==> fresh(env) && env.elements == list.elements
    {
      if list != null {
        var copy := new StringList([]);
        copy.elements := list.elements;
        env := copy;
      }
    }
  }

  /**
   * Arguments set from a caller's list are not changed when the caller later adds to its
   * list, and a later setArgs(null) keeps them.
   */
  method ArgsAreCopied() {
    var environment := new EmilContainerEnvironment<int>();
    var callerList := new StringList(["run", "--fast"]);
    environment.SetArgs(callerList);
    callerList.Add("--debug");
    environment.SetArgs(null);
    environment.SetInput(Some("/input"));
    assert ListHolds(environment.args, Some(["run", "--fast"]));
    assert callerList.elements == ["run", "--fast", "--debug"];
    assert environment.env == null;
  }
}
