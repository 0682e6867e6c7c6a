// What the worker does to the world, as records in an effect log: directory
// changes, the two external tools, Redis publications and registry calls,
// closing the two Redis handles, and the process exit.

module Trace {

  datatype Option<T> = None | Some(value: T)

  datatype Effect =
    | ChangeDir(path: string)                    // os.chdir
    | Summarize(capture: string, output: string) // spsummarizer.sh <capture> > <output>
    | Render(source: string, target: string)     // pandoc <source> --pdf-engine=xelatex -o <target>
    | Publish(channel: string, message: string)  // redis_client.publish
    | DelFromQueue(profile: string)              // del_profile_to_report
    | UpdReported(profile: string)               // upd_reported_time_to_expired_profile
    | CloseSubscriber                            // db_subscriber.close()
    | CloseClient                                // redis_client.close()
    | Exit(code: int)                            // sys.exit(code)
}
