/**
 The container listing handler's projection: each running container record,
 as the Docker client reports it, becomes a summary `{id, name, image}` for
 the viewer.
 */
module Containers {

  /** A container record: its id, its name and the tags of its image. */
  datatype Container = Container(id: string, name: string, imageTags: seq<string>)

  /** The summary sent to the viewer for one container. */
  datatype Summary = Summary(id: string, name: string, image: string)

  /** The image name shown for a container whose image has no tag. */
  const UnknownImage := "unknown"

  /**
   Builds the summary list by appending one record per container, in the
   order the client listed them; the image is the first tag, or
   "unknown" when the image has none.
   */
  method Summarize(containers: seq<Container>) returns (list: seq<Summary>)
    ensures |list| == |containers|
    ensures forall i :: 0 <= i < |containers| ==>
              && list[i].id == containers[i].id
              && list[i].name == containers[i].name
              && (containers[i].imageTags != [] ==> list[i].image == containers[i].imageTags[0])
              && (containers[i].imageTags == [] ==> list[i].image == UnknownImage)
  {
    list := [];
    for n := 0 to |containers|
      invariant |list| == n
      invariant forall i :: 0 <= i < n ==>
                  && list[i].id == containers[i].id
                  && list[i].name == containers[i].name
                  && (containers[i].imageTags != [] ==> list[i].image == containers[i].imageTags[0])
                  && (containers[i].imageTags == [] ==> list[i].image == UnknownImage)
    {
      var c := containers[n];
      var image := if c.imageTags != [] then c.imageTags[0] else UnknownImage;
      list := list + [Summary(c.id, c.name, image)];
    }
  }
}
